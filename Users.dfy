/**
 * The account store of lib/db/users.ts: the `users` and `user_preferences` tables held as two
 * maps keyed by user id, the operations that read and write them, and the partial update of
 * preferences with the positional parameter list it binds.
 */
module Users {
  import opened Wrappers
  import Bcrypt

  /** The value `NOW()` has when a statement runs. */
  type Timestamp = int

  /** A row of `users` (lib/db/users.ts:4-11). */
  datatype User = User(
    id: int,
    email: string,
    passwordHash: Bcrypt.PasswordHash,
    name: Option<string>,
    createdAt: Timestamp,
    updatedAt: Timestamp)

  /** A row of `user_preferences` (lib/db/users.ts:13-21). */
  datatype UserPreferences = UserPreferences(
    id: int,
    userId: int,
    alertThreshold: int,
    emailAlerts: bool,
    quietHoursStart: Option<int>,
    quietHoursEnd: Option<int>,
    createdAt: Timestamp)

  /** The preferences row `createUser` inserts (lib/db/users.ts:45-48). */
  const DefaultAlertThreshold: int := 80
  const DefaultEmailAlerts: bool := true

  /** The SQLSTATE of a unique-constraint violation. */
  const UniqueViolation: string := "23505"
  const EmailExistsMessage: string := "Email already exists"
  const CreateFailedMessage: string := "Failed to create user"

  /** The message `createUser` rethrows for a backend error with SQLSTATE `code` (lib/db/users.ts:51-58). */
  function CreateUserError(code: string): (message: string)
    ensures message == EmailExistsMessage <==> code == UniqueViolation
    ensures message == CreateFailedMessage <==> code != UniqueViolation
  {
    if code == UniqueViolation then EmailExistsMessage else CreateFailedMessage
  }

  /** `${name || null}`: an absent or empty name is stored as NULL (lib/db/users.ts:38). */
  function StoredName(name: Option<string>): (stored: Option<string>)
    ensures stored.None? <==> name.None? || name.value == ""
    ensures stored.Some? ==> stored == name
  {
    if name.Some? && name.value != "" then name else None
  }

  // ---------------------------------------------------------------------------------------------
  // updateUserPreferences: the fields it may change, the builder and the statement it issues
  // ---------------------------------------------------------------------------------------------

  /**
   * The `preferences` argument of `updateUserPreferences`. `None` is a field left `undefined`;
   * for the nullable quiet hours `Some(None)` is an explicit `null`, which IS supplied.
   */
  datatype PreferencesPatch = PreferencesPatch(
    alertThreshold: Option<int>,
    emailAlerts: Option<bool>,
    quietHoursStart: Option<Option<int>>,
    quietHoursEnd: Option<Option<int>>)

  /** No field of the patch is supplied. */
  predicate NoFieldsSupplied(p: PreferencesPatch) {
    p.alertThreshold.None? && p.emailAlerts.None? && p.quietHoursStart.None? && p.quietHoursEnd.None?
  }

  /** A value bound to a `$n` placeholder. */
  datatype SqlValue = SqlInt(i: int) | SqlBool(b: bool) | SqlNull

  /** The updatable columns of `user_preferences`. */
  datatype Column = AlertThreshold | EmailAlerts | QuietHoursStart | QuietHoursEnd

  /** The order in which the source tests the fields (lib/db/users.ts:207-225). */
  const ColumnOrder: seq<Column> := [AlertThreshold, EmailAlerts, QuietHoursStart, QuietHoursEnd]

  function ColumnName(c: Column): string {
    match c
    case AlertThreshold => "alert_threshold"
    case EmailAlerts => "email_alerts"
    case QuietHoursStart => "quiet_hours_start"
    case QuietHoursEnd => "quiet_hours_end"
  }

  /** Rank of a column in `ColumnOrder`. */
  function Rank(c: Column): nat {
    match c
    case AlertThreshold => 0
    case EmailAlerts => 1
    case QuietHoursStart => 2
    case QuietHoursEnd => 3
  }

  /** The field of `p` for column `c` is not `undefined`. */
  predicate Supplied(p: PreferencesPatch, c: Column) {
    match c
    case AlertThreshold => p.alertThreshold.Some?
    case EmailAlerts => p.emailAlerts.Some?
    case QuietHoursStart => p.quietHoursStart.Some?
    case QuietHoursEnd => p.quietHoursEnd.Some?
  }

  function NullableInt(v: Option<int>): SqlValue {
    match v
    case Some(n) => SqlInt(n)
    case None => SqlNull
  }

  /** The value the source pushes onto `values` for a supplied column. */
  function SuppliedValue(p: PreferencesPatch, c: Column): SqlValue
    requires Supplied(p, c)
  {
    match c
    case AlertThreshold => SqlInt(p.alertThreshold.value)
    case EmailAlerts => SqlBool(p.emailAlerts.value)
    case QuietHoursStart => NullableInt(p.quietHoursStart.value)
    case QuietHoursEnd => NullableInt(p.quietHoursEnd.value)
  }

  /** The one-column list of `c` when `p` supplies it, else nothing. */
  function Emit(p: PreferencesPatch, c: Column): seq<Column> {
    if Supplied(p, c) then [c] else []
  }

  /** The columns of `cs` that `p` supplies, in the order of `cs`. */
  function SuppliedAmong(p: PreferencesPatch, cs: seq<Column>): seq<Column> {
    if cs == [] then []
    else (if Supplied(p, cs[0]) then [cs[0]] else []) + SuppliedAmong(p, cs[1..])
  }

  /** The supplied columns in the fixed order: the reference for what the builder emits. */
  function SuppliedColumns(p: PreferencesPatch): seq<Column> {
    SuppliedAmong(p, ColumnOrder)
  }

  /** One `column = $placeholder` entry of `updates`. */
  datatype Assignment = Assignment(column: Column, placeholder: nat) {
    /** The text the source pushes, e.g. `alert_threshold = $1`. */
    function Text(): string {
      ColumnName(column) + " = $" + DecimalText(placeholder)
    }
  }

  function Columns(sets: seq<Assignment>): (cs: seq<Column>)
    ensures |cs| == |sets|
    ensures forall k :: 0 <= k < |sets| ==> cs[k] == sets[k].column
  {
    if sets == [] then [] else [sets[0].column] + Columns(sets[1..])
  }

  /** The statement passed to `sql.query` (lib/db/users.ts:231-234). */
  datatype UpdateQuery = UpdateQuery(sets: seq<Assignment>, wherePlaceholder: nat, params: seq<SqlValue>) {
    function Text(): string {
      "UPDATE user_preferences SET " + JoinComma(sets) + " WHERE user_id = $" + DecimalText(wherePlaceholder)
    }
  }

  /** `updates.join(', ')`. */
  function JoinComma(sets: seq<Assignment>): string {
    if sets == [] then ""
    else if |sets| == 1 then sets[0].Text()
    else sets[0].Text() + ", " + JoinComma(sets[1..])
  }

  function DigitChar(d: nat): char
    requires d < 10
  {
    "0123456789"[d]
  }

  /** The decimal text of `n`, as a JavaScript template literal prints a non-negative integer. */
  function DecimalText(n: nat): (s: string)
    ensures |s| > 0 && forall i :: 0 <= i < |s| ==> '0' <= s[i] <= '9'
    decreases n
  {
    if n < 10 then [DigitChar(n)] else DecimalText(n / 10) + [DigitChar(n % 10)]
  }

  /** Reads a string of decimal digits back as a number. */
  function DecimalValue(s: string): nat
    requires forall i :: 0 <= i < |s| ==> '0' <= s[i] <= '9'
  {
    if s == [] then 0 else DecimalValue(s[..|s| - 1]) * 10 + (s[|s| - 1] as int - '0' as int)
  }

  /** The placeholder number printed after `$` reads back as the same number. */
  lemma {:induction false} DecimalRoundTrip(n: nat)
    ensures DecimalValue(DecimalText(n)) == n
    decreases n
  {
    var s := DecimalText(n);
    if n >= 10 {
      DecimalRoundTrip(n / 10);
      assert s[..|s| - 1] == DecimalText(n / 10);
    }
  }

  /** The text of an entry names its column and then, after ` = $`, its placeholder number. */
  lemma AssignmentTextNamesPlaceholder(a: Assignment)
    ensures a.Text()[..|ColumnName(a.column)|] == ColumnName(a.column)
    ensures var digits := a.Text()[|ColumnName(a.column)| + 4..];
            (forall i :: 0 <= i < |digits| ==> '0' <= digits[i] <= '9') && DecimalValue(digits) == a.placeholder
  {
    var name := ColumnName(a.column);
    assert a.Text()[|name| + 4..] == DecimalText(a.placeholder);
    DecimalRoundTrip(a.placeholder);
  }

  /**
   * What a statement built from `p` for `userId` binds: the k-th entry (from 0) sets the k-th
   * supplied column in the fixed order to placeholder `$(k+1)`, whose parameter is that field's
   * value; the user id is the last parameter, at `$(n+1)`, so the list is `values ++ [userId]`.
   */
  ghost predicate Binds(q: UpdateQuery, p: PreferencesPatch, userId: int) {
    && |q.params| == |q.sets| + 1
    && q.wherePlaceholder == |q.sets| + 1
    && q.params[|q.sets|] == SqlInt(userId)
    && Columns(q.sets) == SuppliedColumns(p)
    && forall k :: 0 <= k < |q.sets| ==>
         && q.sets[k].placeholder == k + 1
         && Supplied(p, q.sets[k].column)
         && q.params[k] == SuppliedValue(p, q.sets[k].column)
  }

  /** The `SET` list is empty exactly when there are no entries, which is why no statement is sent then. */
  lemma JoinCommaEmpty(sets: seq<Assignment>)
    ensures JoinComma(sets) == "" <==> sets == []
  {
    if sets != [] {
      assert |sets[0].Text()| > 0;
    }
  }

  /**
   * The text of a statement that binds `p` for `userId` (lib/db/users.ts:231-234): it starts
   * with the `SET` list of its entries and ends with ` WHERE user_id = $` and a number that reads
   * back as the length of the parameter list, whose last parameter is the user id.
   */
  lemma UpdateTextBindsUserIdLast(q: UpdateQuery, p: PreferencesPatch, userId: int)
    requires Binds(q, p, userId)
    ensures var head := "UPDATE user_preferences SET " + JoinComma(q.sets);
            |head| <= |q.Text()| && q.Text()[..|head|] == head
    ensures var tail := " WHERE user_id = $" + DecimalText(|q.sets| + 1);
            |tail| <= |q.Text()| && q.Text()[|q.Text()| - |tail|..] == tail
    ensures DecimalValue(DecimalText(|q.sets| + 1)) == |q.params|
    ensures q.params[|q.params| - 1] == SqlInt(userId)
  {
    var head := "UPDATE user_preferences SET " + JoinComma(q.sets);
    var tail := " WHERE user_id = $" + DecimalText(|q.sets| + 1);
    assert q.Text() == head + tail;
    DecimalRoundTrip(|q.sets| + 1);
  }

  /**
   * `updates` and `values` bind the columns `cols` in order: the k-th entry (from 0) sets the
   * k-th column to placeholder `$(k+1)`, and the k-th value is that supplied field's value.
   */
  ghost predicate BindsColumns(p: PreferencesPatch, updates: seq<Assignment>, values: seq<SqlValue>, cols: seq<Column>) {
    && |updates| == |values|
    && Columns(updates) == cols
    && forall k :: 0 <= k < |updates| ==>
         && updates[k].placeholder == k + 1
         && Supplied(p, updates[k].column)
         && values[k] == SuppliedValue(p, updates[k].column)
  }

  /**
   * One `if` block of the builder: pushing the value `v` of a column at `$(n+1)` keeps the
   * binding when the column is supplied, and skipping it keeps the binding when it is not.
   */
  lemma PushAssignment(p: PreferencesPatch, updates: seq<Assignment>, values: seq<SqlValue>, cols: seq<Column>,
                       c: Column, v: SqlValue)
    requires BindsColumns(p, updates, values, cols)
    requires Supplied(p, c) ==> v == SuppliedValue(p, c)
    ensures Supplied(p, c) ==>
              BindsColumns(p, updates + [Assignment(c, |values| + 1)], values + [v], cols + Emit(p, c))
    ensures !Supplied(p, c) ==> BindsColumns(p, updates, values, cols + Emit(p, c))
  {
    if Supplied(p, c) {
      var updates' := updates + [Assignment(c, |values| + 1)];
      assert Columns(updates') == cols + [c] by {
        assert forall k :: 0 <= k < |updates'| ==> Columns(updates')[k] == (cols + [c])[k];
      }
    } else {
      assert cols + Emit(p, c) == cols;
    }
  }

  /** The four `if` blocks of `updateUserPreferences` that fill `updates` and `values` (lib/db/users.ts:204-225). */
  method BuildAssignments(p: PreferencesPatch) returns (updates: seq<Assignment>, values: seq<SqlValue>)
    ensures BindsColumns(p, updates, values, SuppliedColumns(p))
  {
    updates, values := [], [];
    // `cols` is the list of columns emitted so far; each block is preceded by the step lemma,
    // given the value that block pushes when its field is present.
    ghost var cols: seq<Column> := [];
    PushAssignment(p, updates, values, cols, AlertThreshold, SqlInt(p.alertThreshold.GetOr(0)));
    if p.alertThreshold.Some? {
      updates := updates + [Assignment(AlertThreshold, |values| + 1)];
      values := values + [SqlInt(p.alertThreshold.value)];
    }
    cols := cols + Emit(p, AlertThreshold);
    PushAssignment(p, updates, values, cols, EmailAlerts, SqlBool(p.emailAlerts.GetOr(false)));
    if p.emailAlerts.Some? {
      updates := updates + [Assignment(EmailAlerts, |values| + 1)];
      values := values + [SqlBool(p.emailAlerts.value)];
    }
    cols := cols + Emit(p, EmailAlerts);
    PushAssignment(p, updates, values, cols, QuietHoursStart, NullableInt(p.quietHoursStart.GetOr(None)));
    if p.quietHoursStart.Some? {
      updates := updates + [Assignment(QuietHoursStart, |values| + 1)];
      values := values + [NullableInt(p.quietHoursStart.value)];
    }
    cols := cols + Emit(p, QuietHoursStart);
    PushAssignment(p, updates, values, cols, QuietHoursEnd, NullableInt(p.quietHoursEnd.GetOr(None)));
    if p.quietHoursEnd.Some? {
      updates := updates + [Assignment(QuietHoursEnd, |values| + 1)];
      values := values + [NullableInt(p.quietHoursEnd.value)];
    }
    cols := cols + Emit(p, QuietHoursEnd);
    SuppliedColumnsUnfold(p);
  }

  /** The whole builder: nothing when no field is supplied, otherwise the bound statement (lib/db/users.ts:204-234). */
  method BuildUpdate(userId: int, p: PreferencesPatch) returns (q: Option<UpdateQuery>)
    ensures q.None? <==> NoFieldsSupplied(p)
    ensures q.Some? ==> Binds(q.value, p, userId)
  {
    var updates, values := BuildAssignments(p);
    SuppliedColumnsEmpty(p);
    if |updates| == 0 {
      return None;
    }
    q := Some(UpdateQuery(updates, |values| + 1, values + [SqlInt(userId)]));
  }

  /** The filter over the four columns written out, one test per column as the source does. */
  lemma SuppliedColumnsUnfold(p: PreferencesPatch)
    ensures SuppliedColumns(p) == [] + Emit(p, AlertThreshold) + Emit(p, EmailAlerts) + Emit(p, QuietHoursStart) + Emit(p, QuietHoursEnd)
  {
  }

  /** A column is emitted exactly when it is supplied. */
  lemma {:induction false} SuppliedAmongMembers(p: PreferencesPatch, cs: seq<Column>, c: Column)
    ensures c in SuppliedAmong(p, cs) <==> c in cs && Supplied(p, c)
  {
    if cs != [] {
      SuppliedAmongMembers(p, cs[1..], c);
    }
  }

  /** The supplied columns are exactly the supplied fields, with no repeats, in the fixed order. */
  lemma SuppliedColumnsInOrder(p: PreferencesPatch)
    ensures forall c :: c in SuppliedColumns(p) <==> Supplied(p, c)
    ensures forall i, j :: 0 <= i < j < |SuppliedColumns(p)| ==> Rank(SuppliedColumns(p)[i]) < Rank(SuppliedColumns(p)[j])
  {
    forall c ensures c in SuppliedColumns(p) <==> Supplied(p, c) {
      SuppliedAmongMembers(p, ColumnOrder, c);
    }
    SuppliedColumnsUnfold(p);
  }

  /** An empty list of supplied columns means nothing was supplied. */
  lemma SuppliedColumnsEmpty(p: PreferencesPatch)
    ensures SuppliedColumns(p) == [] <==> NoFieldsSupplied(p)
  {
    SuppliedColumnsUnfold(p);
  }

  // ---------------------------------------------------------------------------------------------
  // What the UPDATE statement does to the table
  // ---------------------------------------------------------------------------------------------

  /** `SET c = v` on one row; `None` when the value does not fit the column's type. */
  function AssignColumn(row: UserPreferences, c: Column, v: SqlValue): Option<UserPreferences> {
    match (c, v)
    case (AlertThreshold, SqlInt(n)) => Some(row.(alertThreshold := n))
    case (EmailAlerts, SqlBool(b)) => Some(row.(emailAlerts := b))
    case (QuietHoursStart, SqlInt(n)) => Some(row.(quietHoursStart := Some(n)))
    case (QuietHoursStart, SqlNull) => Some(row.(quietHoursStart := None))
    case (QuietHoursEnd, SqlInt(n)) => Some(row.(quietHoursEnd := Some(n)))
    case (QuietHoursEnd, SqlNull) => Some(row.(quietHoursEnd := None))
    case _ => None
  }

  /** The SET list applied to one row, each entry reading its parameter by placeholder. */
  function ApplyAssignments(row: UserPreferences, sets: seq<Assignment>, params: seq<SqlValue>): Option<UserPreferences>
    decreases |sets|
  {
    if sets == [] then Some(row)
    else if !(1 <= sets[0].placeholder <= |params|) then None
    else match AssignColumn(row, sets[0].column, params[sets[0].placeholder - 1])
      case None => None
      case Some(next) => ApplyAssignments(next, sets[1..], params)
  }

  /**
   * Running the statement against the preferences table keyed by `user_id`: the row whose
   * `user_id` equals the WHERE parameter gets the SET list; no matching row changes nothing.
   * `None` is a statement the database would reject.
   */
  function ExecuteUpdate(table: map<int, UserPreferences>, q: UpdateQuery): Option<map<int, UserPreferences>> {
    if !(1 <= q.wherePlaceholder <= |q.params|) then None
    else match q.params[q.wherePlaceholder - 1]
      case SqlInt(uid) =>
        if uid !in table then Some(table)
        else (match ApplyAssignments(table[uid], q.sets, q.params)
              case None => None
              case Some(row) => Some(table[uid := row]))
      case _ => None
  }

  /** Partial-update semantics: the supplied fields take the new values, every other field stays. */
  function ApplyPatch(row: UserPreferences, p: PreferencesPatch): (r: UserPreferences)
    ensures r.id == row.id && r.userId == row.userId && r.createdAt == row.createdAt
    ensures p.alertThreshold.None? ==> r.alertThreshold == row.alertThreshold
    ensures p.alertThreshold.Some? ==> r.alertThreshold == p.alertThreshold.value
    ensures p.emailAlerts.None? ==> r.emailAlerts == row.emailAlerts
    ensures p.emailAlerts.Some? ==> r.emailAlerts == p.emailAlerts.value
    ensures p.quietHoursStart.None? ==> r.quietHoursStart == row.quietHoursStart
    ensures p.quietHoursStart.Some? ==> r.quietHoursStart == p.quietHoursStart.value
    ensures p.quietHoursEnd.None? ==> r.quietHoursEnd == row.quietHoursEnd
    ensures p.quietHoursEnd.Some? ==> r.quietHoursEnd == p.quietHoursEnd.value
    ensures NoFieldsSupplied(p) ==> r == row
  {
    row.(alertThreshold := p.alertThreshold.GetOr(row.alertThreshold),
         emailAlerts := p.emailAlerts.GetOr(row.emailAlerts),
         quietHoursStart := p.quietHoursStart.GetOr(row.quietHoursStart),
         quietHoursEnd := p.quietHoursEnd.GetOr(row.quietHoursEnd))
  }

  /** Column `c` of `row` takes its value from `p` when supplied. */
  function PatchColumn(row: UserPreferences, p: PreferencesPatch, c: Column): UserPreferences {
    if !Supplied(p, c) then row
    else match c
      case AlertThreshold => row.(alertThreshold := p.alertThreshold.value)
      case EmailAlerts => row.(emailAlerts := p.emailAlerts.value)
      case QuietHoursStart => row.(quietHoursStart := p.quietHoursStart.value)
      case QuietHoursEnd => row.(quietHoursEnd := p.quietHoursEnd.value)
  }

  function PatchColumns(row: UserPreferences, p: PreferencesPatch, cs: seq<Column>): UserPreferences
    decreases |cs|
  {
    if cs == [] then row else PatchColumns(PatchColumn(row, p, cs[0]), p, cs[1..])
  }

  /** Skipping the columns `p` does not supply changes nothing. */
  lemma {:induction false} PatchSuppliedAmong(row: UserPreferences, p: PreferencesPatch, cs: seq<Column>)
    ensures PatchColumns(row, p, SuppliedAmong(p, cs)) == PatchColumns(row, p, cs)
    decreases |cs|
  {
    if cs != [] {
      var rest := SuppliedAmong(p, cs[1..]);
      PatchSuppliedAmong(PatchColumn(row, p, cs[0]), p, cs[1..]);
      if Supplied(p, cs[0]) {
        assert SuppliedAmong(p, cs) == [cs[0]] + rest;
        assert ([cs[0]] + rest)[1..] == rest;
      } else {
        assert SuppliedAmong(p, cs) == [] + rest == rest;
      }
    }
  }

  lemma PatchColumnOrder(row: UserPreferences, p: PreferencesPatch)
    ensures PatchColumns(row, p, ColumnOrder) == ApplyPatch(row, p)
  {
  }

  /** The entries from `j` on, bound as `Binds` says, set their columns from `p`. */
  lemma {:induction false} ApplyBoundSuffix(row: UserPreferences, q: UpdateQuery, p: PreferencesPatch, userId: int, j: nat)
    requires Binds(q, p, userId)
    requires j <= |q.sets|
    ensures ApplyAssignments(row, q.sets[j..], q.params) == Some(PatchColumns(row, p, Columns(q.sets[j..])))
    decreases |q.sets| - j
  {
    var rest := q.sets[j..];
    if j < |q.sets| {
      var a := q.sets[j];
      assert rest[0] == a && rest[1..] == q.sets[j + 1..];
      assert AssignColumn(row, a.column, q.params[a.placeholder - 1]) == Some(PatchColumn(row, p, a.column));
      ApplyBoundSuffix(PatchColumn(row, p, a.column), q, p, userId, j + 1);
      assert Columns(rest) == [a.column] + Columns(q.sets[j + 1..]);
    }
  }

  /** The bound statement the builder produces performs exactly the partial update. */
  lemma ExecuteBuiltUpdate(table: map<int, UserPreferences>, q: UpdateQuery, p: PreferencesPatch, userId: int)
    requires Binds(q, p, userId)
    ensures ExecuteUpdate(table, q) ==
      Some(if userId in table then table[userId := ApplyPatch(table[userId], p)] else table)
  {
    if userId in table {
      var row := table[userId];
      ApplyBoundSuffix(row, q, p, userId, 0);
      assert q.sets[0..] == q.sets;
      PatchSuppliedAmong(row, p, ColumnOrder);
      PatchColumnOrder(row, p);
    }
  }

  // ---------------------------------------------------------------------------------------------
  // The store
  // ---------------------------------------------------------------------------------------------

  /** No two users share an email: the unique index on `users.email`. */
  ghost predicate EmailsUnique(users: map<int, User>) {
    forall a, b :: a in users && b in users && users[a].email == users[b].email ==> a == b
  }

  /**
   * One preferences row per user in `userIds`, keyed by its `user_id`, with distinct ids taken
   * from the serial counter below `nextId`.
   */
  ghost predicate PreferencesTableValid(userIds: set<int>, table: map<int, UserPreferences>, nextId: int) {
    && table.Keys == userIds
    && (forall uid :: uid in table ==> table[uid].userId == uid && 1 <= table[uid].id < nextId)
    && (forall a, b :: a in table && b in table && table[a].id == table[b].id ==> a == b)
  }

  /** Patching one row keeps the keys and every row's id and user id, hence the table's invariant. */
  lemma PatchKeepsPreferencesValid(userIds: set<int>, table: map<int, UserPreferences>, nextId: int,
                                   p: PreferencesPatch, userId: int)
    requires PreferencesTableValid(userIds, table, nextId)
    ensures PreferencesTableValid(userIds, if userId in table then table[userId := ApplyPatch(table[userId], p)] else table, nextId)
  {
  }

  /** The two tables of lib/db/users.ts, with the serial counters that assign their ids. */
  class AccountStore {
    var users: map<int, User>
    var preferences: map<int, UserPreferences>
    var nextUserId: int
    var nextPreferencesId: int

    /**
     * Rows are keyed by their own ids, ids come from the serial counters, emails are unique,
     * and every user has exactly one preferences row, keyed by its `user_id`.
     */
    ghost predicate Valid()
      reads this
    {
      && 1 <= nextUserId && 1 <= nextPreferencesId
      && (forall id :: id in users ==> users[id].id == id && 1 <= id < nextUserId)
      && EmailsUnique(users)
      && PreferencesTableValid(users.Keys, preferences, nextPreferencesId)
    }

    constructor ()
      ensures Valid()
      ensures users == map[] && preferences == map[]
    {
      users, preferences := map[], map[];
      nextUserId, nextPreferencesId := 1, 1;
    }

    /** `getUserById` (lib/db/users.ts:86-103). */
    function GetUserById(id: int): (r: Option<User>)
      reads this
      ensures r.Some? <==> id in users
      ensures r.Some? ==> r.value in users.Values && r.value == users[id]
    {
      if id in users then Some(users[id]) else None
    }

    /** `getUserByEmail` (lib/db/users.ts:64-81): the one user with that email, if any. */
    function GetUserByEmail(email: string): (r: Option<User>)
      reads this
      requires Valid()
      ensures r.Some? <==> exists id :: id in users && users[id].email == email
      ensures r.Some? ==> r.value.email == email && r.value.id in users && users[r.value.id] == r.value
    {
      if exists id :: id in users && users[id].email == email then
        var id :| id in users && users[id].email == email;
        Some(users[id])
      else None
    }

    /**
     * `verifyPassword` (lib/db/users.ts:108-130): a user comes back only when one has the email
     * and the password compares equal to its hash; an unknown email and a wrong password both
     * give `None`.
     */
    function VerifyPassword(email: string, password: string): (r: Option<User>)
      reads this
      requires Valid()
      ensures r.Some? <==> exists id :: id in users && users[id].email == email && Bcrypt.Compare(password, users[id].passwordHash)
      ensures r.Some? ==> r.value.email == email && r.value.id in users && users[r.value.id] == r.value
    {
      match GetUserByEmail(email)
      case None => None
      case Some(user) => if Bcrypt.Compare(password, user.passwordHash) then Some(user) else None
    }

    /** `getUserPreferences` (lib/db/users.ts:175-194): present exactly for the existing users. */
    function GetUserPreferences(userId: int): (r: Option<UserPreferences>)
      reads this
      requires Valid()
      ensures r.Some? <==> GetUserById(userId).Some?
      ensures r.Some? ==> userId in preferences && r.value == preferences[userId] && r.value.userId == userId
    {
      if userId in preferences then Some(preferences[userId]) else None
    }

    /**
     * `createUser` (lib/db/users.ts:26-59): a taken email fails with the unique-violation
     * message and changes nothing; otherwise a user with a fresh id and the hashed password is
     * inserted together with its default preferences row.
     */
    method CreateUser(email: string, password: string, name: Option<string>, salt: nat, now: Timestamp)
      returns (result: Result<User, string>)
      requires Valid()
      modifies this
      ensures Valid()
      ensures result.Failure? <==> old(GetUserByEmail(email)).Some?
      ensures result.Failure? ==>
                && result.error == EmailExistsMessage
                && users == old(users) && preferences == old(preferences)
                && nextUserId == old(nextUserId) && nextPreferencesId == old(nextPreferencesId)
      ensures result.Success? ==>
                var user := result.value;
                && user.id !in old(users)
                && user == User(user.id, email, Bcrypt.Hash(password, salt), StoredName(name), now, now)
                && users == old(users)[user.id := user]
                && preferences == old(preferences)[user.id :=
                     UserPreferences(old(nextPreferencesId), user.id, DefaultAlertThreshold, DefaultEmailAlerts, None, None, now)]
                && GetUserById(user.id) == Some(user)
                && GetUserByEmail(email) == Some(user)
                && VerifyPassword(email, password) == Some(user)
    {
      if exists id :: id in users && users[id].email == email {
        return Failure(CreateUserError(UniqueViolation));
      }
      var user := User(nextUserId, email, Bcrypt.Hash(password, salt), StoredName(name), now, now);
      users := users[user.id := user];
      nextUserId := nextUserId + 1;
      preferences := preferences[user.id :=
        UserPreferences(nextPreferencesId, user.id, DefaultAlertThreshold, DefaultEmailAlerts, None, None, now)];
      nextPreferencesId := nextPreferencesId + 1;
      result := Success(user);
    }

    /** `updateUserName` (lib/db/users.ts:135-149): no matching row means no change. */
    method UpdateUserName(userId: int, name: string, now: Timestamp)
      requires Valid()
      modifies this
      ensures Valid()
      ensures users == if userId in old(users)
                       then old(users)[userId := old(users)[userId].(name := Some(name), updatedAt := now)]
                       else old(users)
      ensures preferences == old(preferences)
      ensures nextUserId == old(nextUserId) && nextPreferencesId == old(nextPreferencesId)
    {
      if userId in users {
        users := users[userId := users[userId].(name := Some(name), updatedAt := now)];
      }
    }

    /** `updateUserPassword` (lib/db/users.ts:154-170): the new password verifies afterwards. */
    method UpdateUserPassword(userId: int, newPassword: string, salt: nat, now: Timestamp)
      requires Valid()
      modifies this
      ensures Valid()
      ensures users == if userId in old(users)
                       then old(users)[userId := old(users)[userId].(passwordHash := Bcrypt.Hash(newPassword, salt), updatedAt := now)]
                       else old(users)
      ensures preferences == old(preferences)
      ensures nextUserId == old(nextUserId) && nextPreferencesId == old(nextPreferencesId)
      ensures userId in users ==> VerifyPassword(users[userId].email, newPassword) == Some(users[userId])
    {
      if userId in users {
        users := users[userId := users[userId].(passwordHash := Bcrypt.Hash(newPassword, salt), updatedAt := now)];
      }
    }

    /**
     * `updateUserPreferences` (lib/db/users.ts:199-239): returns the statement it issued. With
     * no supplied field nothing is issued; otherwise only the supplied fields of that user's row
     * change and every other row stays as it was.
     */
    method UpdateUserPreferences(userId: int, p: PreferencesPatch) returns (issued: Option<UpdateQuery>)
      requires Valid()
      modifies this
      ensures Valid()
      ensures issued.None? <==> NoFieldsSupplied(p)
      ensures issued.Some? ==> Binds(issued.value, p, userId)
      ensures preferences == if userId in old(preferences)
                             then old(preferences)[userId := ApplyPatch(old(preferences)[userId], p)]
                             else old(preferences)
      ensures users == old(users)
      ensures nextUserId == old(nextUserId) && nextPreferencesId == old(nextPreferencesId)
    {
      issued := BuildUpdate(userId, p);
      if issued.None? {
        return;
      }
      ExecuteBuiltUpdate(preferences, issued.value, p, userId);
      PatchKeepsPreferencesValid(users.Keys, preferences, nextPreferencesId, p, userId);
      preferences := ExecuteUpdate(preferences, issued.value).value;
    }

    /** `deleteUser` (lib/db/users.ts:244-254): removes the user and, by cascade, its preferences. */
    method DeleteUser(userId: int)
      requires Valid()
      modifies this
      ensures Valid()
      ensures users == old(users) - {userId}
      ensures preferences == old(preferences) - {userId}
      ensures GetUserById(userId).None? && GetUserPreferences(userId).None?
      ensures nextUserId == old(nextUserId) && nextPreferencesId == old(nextPreferencesId)
    {
      users := users - {userId};
      preferences := preferences - {userId};
    }
  }
}
