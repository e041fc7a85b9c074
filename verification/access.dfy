/** Who may do what: the edit/delete policy (`canEdit`, `isSameDay`), the cash
    ledger gate (`canAccessKasa`) and the businesses a user may open
    (`getUserAllowedBusinesses`). "Today" is the business-local date, passed in. */
module Access {
  import opened Common
  import opened Records

  /** `isSameDay(dateStr)`: the record's business date is today's. */
  predicate IsSameDay(date: Date, today: Date)
  {
    date == today
  }

  predicate IsAdmin(user: Option<User>)
  {
    user.Some? && user.value.role == Admin
  }

  /** `canEdit(dateStr)`: an admin may always edit or delete; anyone else (staff,
      or nobody signed in) only records dated today. */
  function CanEdit(user: Option<User>, date: Date, today: Date): (r: bool)
    ensures IsAdmin(user) ==> r
    ensures !IsAdmin(user) ==> (r <==> date == today)
  {
    if IsAdmin(user) then true else IsSameDay(date, today)
  }

  /** Whatever a non-admin may edit, an admin may edit too; and a non-admin may
      edit records of at most one date, today's. */
  lemma CanEditStaffIsOneDay(user: Option<User>, admin: User, d1: Date, d2: Date, today: Date)
    requires !IsAdmin(user) && admin.role == Admin
    ensures CanEdit(user, d1, today) ==> CanEdit(Some(admin), d1, today)
    ensures CanEdit(user, d1, today) && CanEdit(user, d2, today) ==> d1 == d2
    ensures CanEdit(user, today, today)
  {
  }

  /** `canAccessKasa()`: every signed-in user may use the cash ledger. */
  function CanAccessCashLedger(user: Option<User>): (r: bool)
    ensures r <==> user.Some?
  {
    user.Some?
  }

  /** Everyone signed in may open the cash ledger, whatever their role; nobody
      else may. */
  lemma CashLedgerOpenToAll(u: User)
    ensures CanAccessCashLedger(Some(u.(role := Admin)))
    ensures CanAccessCashLedger(Some(u.(role := Staff)))
    ensures !CanAccessCashLedger(None)
  {
  }

  /** `user.allowed_businesses?.includes(id)`: a missing list allows nothing. */
  predicate Allows(user: User, bid: Id)
  {
    user.allowedBusinesses.Some? && bid in user.allowedBusinesses.value
  }

  function AllowedBy(user: User): Business -> bool { (b: Business) => Allows(user, b.id) }

  /** `getUserAllowedBusinesses()`: the businesses the signed-in user is allowed,
      in list order; none when nobody is signed in. */
  function UserAllowedBusinesses(user: Option<User>, businesses: seq<Business>): (r: seq<Business>)
    ensures forall b :: b in r <==> user.Some? && b in businesses && Allows(user.value, b.id)
    ensures |r| <= |businesses|
    ensures Subsequence(r, businesses)
  {
    match user
    case None => []
    case Some(u) => Filter(businesses, AllowedBy(u))
  }

  /** The role plays no part in which businesses are listed: an admin is held to
      `allowed_businesses` exactly as staff are. */
  lemma AllowedBusinessesIgnoreRole(u: User, businesses: seq<Business>)
    ensures UserAllowedBusinesses(Some(u.(role := Admin)), businesses)
         == UserAllowedBusinesses(Some(u.(role := Staff)), businesses)
  {
    FilterCongruent(businesses, AllowedBy(u.(role := Admin)), AllowedBy(u.(role := Staff)));
  }

  /** A user whose list allows every business sees all of them, in order. */
  lemma AllowedBusinessesAll(u: User, businesses: seq<Business>)
    requires forall b :: b in businesses ==> Allows(u, b.id)
    ensures UserAllowedBusinesses(Some(u), businesses) == businesses
  {
    FilterKeepsAll(businesses, AllowedBy(u));
  }
}
