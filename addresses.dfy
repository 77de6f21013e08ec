/** Shipping addresses (apps/addresses/models.py): saving an address marked
    as default first clears the default flag on the user's other default
    addresses, so a user has at most one default address. */
module Addresses {
  import opened Common

  datatype Address = Address(
    user: nat,
    street: Option<string>,
    city: Option<string>,
    state: Option<string>,
    zipCode: Option<string>,
    country: Option<string>,
    isDefault: bool)

  /** At most one default address per user. */
  ghost predicate OneDefaultPerUser(book: map<nat, Address>) {
    forall i, j :: i in book && j in book && book[i].isDefault && book[j].isDefault && book[i].user == book[j].user ==> i == j
  }

  /** The bulk update: every default address of the user loses its flag. */
  function ClearDefaults(book: map<nat, Address>, user: nat): (r: map<nat, Address>)
    ensures r.Keys == book.Keys
    ensures forall i :: i in book ==> r[i] == (if book[i].user == user && book[i].isDefault then book[i].(isDefault := false) else book[i])
  {
    map i | i in book :: if book[i].user == user && book[i].isDefault then book[i].(isDefault := false) else book[i]
  }

  /** Address.save: the table after saving `a` under `id` (a new row or an
      update of the existing one). */
  function Saved(book: map<nat, Address>, id: nat, a: Address): (r: map<nat, Address>)
    ensures r.Keys == book.Keys + {id}
    ensures r[id] == a
    ensures a.isDefault ==> forall i :: i in r && r[i].user == a.user && r[i].isDefault ==> i == id
    ensures !a.isDefault ==> r == book[id := a]
    ensures forall i :: i in book && i != id && book[i].user != a.user ==> r[i] == book[i]
    ensures forall i :: i in book && i != id ==> r[i] == book[i].(isDefault := r[i].isDefault)
  {
    (if a.isDefault then ClearDefaults(book, a.user) else book)[id := a]
  }

  /** Saving keeps at most one default per user. */
  lemma SaveKeepsOneDefault(book: map<nat, Address>, id: nat, a: Address)
    requires OneDefaultPerUser(book)
    ensures OneDefaultPerUser(Saved(book, id, a))
  {
    var r := Saved(book, id, a);
    forall i, j | i in r && j in r && r[i].isDefault && r[j].isDefault && r[i].user == r[j].user
      ensures i == j
    {
      if !a.isDefault && i != id && j != id {
        assert book[i].isDefault && book[j].isDefault;
      }
    }
  }

  /** Saving a default address for a user who already has another default
      moves the flag: the old default stays, no longer default. */
  lemma DefaultMoves(book: map<nat, Address>, id: nat, previous: nat, a: Address)
    requires previous in book && previous != id && book[previous].user == a.user && book[previous].isDefault
    requires a.isDefault
    ensures previous in Saved(book, id, a) && Saved(book, id, a)[previous] == book[previous].(isDefault := false)
  {
  }

  /** The address table. */
  class AddressBook {
    var addresses: map<nat, Address>

    ghost predicate Valid()
      reads this
    {
      OneDefaultPerUser(addresses)
    }

    constructor ()
      ensures Valid() && addresses == map[]
    {
      addresses := map[];
    }

    /** Address.save: clear the user's other defaults when this one is a
        default, then write the row. */
    method Save(id: nat, a: Address)
      requires Valid()
      modifies this
      ensures Valid()
      ensures addresses == Saved(old(addresses), id, a)
    {
      SaveKeepsOneDefault(addresses, id, a);
      if a.isDefault {
        addresses := ClearDefaults(addresses, a.user);
      }
      addresses := addresses[id := a];
    }
  }
}
