/** Access to the product catalogue endpoints (apps/products/views.py,
    IsAdminOrReadOnly): signed-in users may read, staff may also write. */
module ProductPermissions {

  const ReadMethods: set<string> := {"GET", "HEAD", "OPTIONS"}

  /** The requesting user as the permission sees it: an anonymous user is
      not authenticated. */
  datatype RequestUser = RequestUser(isAuthenticated: bool, isStaff: bool)

  /** IsAdminOrReadOnly.has_permission. */
  predicate IsAdminOrReadOnly(httpMethod: string, user: RequestUser) {
    if httpMethod in ReadMethods then user.isAuthenticated
    else user.isAuthenticated && user.isStaff
  }

  /** Reads are allowed exactly to authenticated users, other methods
      exactly to authenticated staff. */
  lemma PermissionByMethod(httpMethod: string, user: RequestUser)
    ensures httpMethod in ReadMethods ==> (IsAdminOrReadOnly(httpMethod, user) <==> user.isAuthenticated)
    ensures httpMethod !in ReadMethods ==> (IsAdminOrReadOnly(httpMethod, user) <==> user.isAuthenticated && user.isStaff)
  {
  }

  /** Nothing is allowed anonymously, and staff are allowed everything. */
  lemma AnonymousNeverStaffAlways(httpMethod: string, user: RequestUser)
    ensures !user.isAuthenticated ==> !IsAdminOrReadOnly(httpMethod, user)
    ensures user.isAuthenticated && user.isStaff ==> IsAdminOrReadOnly(httpMethod, user)
  {
  }

  /** Whatever a user may write, they may also read. */
  lemma WriteImpliesRead(httpMethod: string, readMethod: string, user: RequestUser)
    requires readMethod in ReadMethods
    ensures IsAdminOrReadOnly(httpMethod, user) ==> IsAdminOrReadOnly(readMethod, user)
  {
  }
}
