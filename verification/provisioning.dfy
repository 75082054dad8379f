/**
  Activation tokens, lines and number allocation.
 */
module Provisioning {
  import opened Options

  // Tables are maps and a transaction is one update, or none. Random draws are parameters.

  type Number = string
  type Key = int
  type Hash = string
  type Time = int

  datatype Status = Issued | Used | Revoked
  datatype Token = Token(number: Number, expires: Time, status: Status)  // number "" is NULL: assign one
  datatype Line = Line(number: Number, name: string)
  datatype Error = Required | NotFound | AlreadyUsed | IsRevoked | Expired | NumberTaken | LineNotFound | NoNumbers

  datatype Store = Store(
    users: map<Key, Line>,
    tokens: map<Hash, Token>,
    made: multiset<Hash>      // history: one entry for each line a token has made
  )

  const EMPTY := Store(map[], map[], multiset{})

  // ---- Numbers ----

  const MIN_NUMBER := 1_000_000
  const MAX_NUMBER := 9_999_999

  function Digit(d: int): char
    requires 0 <= d < 10
  {
    (d + '0' as int) as char
  }

  /** The last k decimal digits of n. */
  function Digits(n: nat, k: nat): string
    decreases k
  {
    if k == 0 then "" else Digits(n / 10, k - 1) + [Digit(n % 10)]
  }

  /** "%07d" */
  function Format(n: nat): string {
    Digits(n, 7)
  }

  function Value(s: string): int {
    if s == "" then 0 else 10 * Value(s[..|s| - 1]) + (s[|s| - 1] as int - '0' as int)
  }

  function Power10(k: nat): nat {
    if k == 0 then 1 else 10 * Power10(k - 1)
  }

  lemma {:induction false} DigitsValue(n: nat, k: nat)
    requires n < Power10(k)
    ensures Value(Digits(n, k)) == n && |Digits(n, k)| == k
    decreases k
  {
    if k > 0 {
      var s := Digits(n, k);
      DigitsValue(n / 10, k - 1);
      assert s[..|s| - 1] == Digits(n / 10, k - 1);
    }
  }

  /** Different seven-digit numbers are written differently. */
  lemma {:induction false} FormatValue(n: nat)
    requires n <= MAX_NUMBER
    ensures Value(Format(n)) == n && |Format(n)| == 7
  {
    assert Power10(4) == 10_000;
    assert Power10(7) == 10_000_000;
    DigitsValue(n, 7);
  }

  predicate InPool(n: int) {
    MIN_NUMBER <= n <= MAX_NUMBER
  }

  /** All numbers a line can be assigned automatically. */
  ghost function Pool(): set<Number> {
    set n | MIN_NUMBER <= n <= MAX_NUMBER :: Format(n)
  }

  ghost predicate Distinct(out: seq<Number>) {
    forall i, j | 0 <= i < j < |out| :: out[i] != out[j]
  }

  function Elements(out: seq<Number>): set<Number> {
    set s | s in out
  }

  /** pickFreeNumbers: up to 2000 random draws, then a scan for what is still missing. */
  method PickFreeNumbers(n: nat, used: set<Number>, draws: seq<int>) returns (out: seq<Number>, used': set<Number>)
    requires |draws| == 2000 && forall i | 0 <= i < |draws| :: InPool(draws[i])
    ensures Distinct(out) && Elements(out) <= Pool() && Elements(out) !! used
    ensures used' == used + Elements(out)
    ensures |out| == if n <= |Pool() - used| then n else |Pool() - used|
  {
    out, used' := [], used;
    hide Pool, Format, Picked;
    PickNone(n, used);
    var i := 0;
    while i < 2000 && |out| < n
      invariant 0 <= i <= 2000
      invariant Picked(n, used, out, used')
    {
      PoolHas(draws[i]);
      var ns := Format(draws[i]);
      if ns !in used' {
        PickOne(n, used, out, used', ns);
        used' := used' + {ns};
        out := out + [ns];
      }
      i := i + 1;
    }
    var num := MIN_NUMBER;
    while num <= MAX_NUMBER && |out| < n
      invariant MIN_NUMBER <= num <= MAX_NUMBER + 1
      invariant Picked(n, used, out, used')
      invariant forall m: int | MIN_NUMBER <= m < num :: Format(m) in used'
    {
      PoolHas(num);
      var ns := Format(num);
      if ns !in used' {
        PickOne(n, used, out, used', ns);
        used' := used' + {ns};
        out := out + [ns];
      }
      num := num + 1;
    }
    PickedCount(n, used, out, used');
    PickedMeans(n, used, out, used');
    if |out| < n {
      PoolCovered(used');
      PickedAll(n, used, out, used');
    }
  }

  ghost predicate Picked(n: nat, used: set<Number>, out: seq<Number>, used': set<Number>) {
    && Distinct(out) && |out| <= n && Elements(out) <= Pool() && Elements(out) !! used && used' == used + Elements(out)
  }

  lemma {:induction false} PickNone(n: nat, used: set<Number>)
    ensures Picked(n, used, [], used)
  {}

  lemma {:induction false} PickedMeans(n: nat, used: set<Number>, out: seq<Number>, used': set<Number>)
    requires Picked(n, used, out, used')
    ensures Distinct(out) && |out| <= n && Elements(out) <= Pool() && Elements(out) !! used
      && used' == used + Elements(out)
  {}

  lemma {:induction false} PoolHas(n: int)
    requires InPool(n)
    ensures Format(n) in Pool()
  {}

  lemma {:induction false} PickOne(n: nat, used: set<Number>, out: seq<Number>, used': set<Number>, ns: Number)
    requires Picked(n, used, out, used') && |out| < n && ns in Pool() && ns !in used'
    ensures Picked(n, used, out + [ns], used' + {ns})
  {
    hide Pool;
    assert Elements(out + [ns]) == Elements(out) + {ns};
  }

  lemma {:induction false} ElementsCount(out: seq<Number>)
    requires Distinct(out)
    ensures |Elements(out)| == |out|
    decreases |out|
  {
    if out != [] {
      var rest := out[1..];
      assert forall i, j | 0 <= i < j < |rest| :: rest[i] == out[i + 1] && rest[j] == out[j + 1];
      ElementsCount(rest);
      assert out[0] !in rest;
      assert Elements(out) == {out[0]} + Elements(rest);
    }
  }

  lemma {:induction false} PickedCount(n: nat, used: set<Number>, out: seq<Number>, used': set<Number>)
    requires Picked(n, used, out, used')
    ensures |out| <= |Pool() - used|
  {
    hide Pool;
    ElementsCount(out);
    SubsetSize(Elements(out), Pool() - used);
  }

  lemma {:induction false} SubsetSize(a: set<Number>, b: set<Number>)
    requires a <= b
    ensures |a| <= |b|
  {
    assert b == a + (b - a);
  }

  lemma {:induction false} PoolCovered(used: set<Number>)
    requires forall m: int | MIN_NUMBER <= m < MAX_NUMBER + 1 :: Format(m) in used
    ensures Pool() <= used
  {}

  lemma {:induction false} PickedAll(n: nat, used: set<Number>, out: seq<Number>, used': set<Number>)
    requires Picked(n, used, out, used') && Pool() <= used'
    ensures |out| == |Pool() - used|
  {
    hide Pool;
    ElementsCount(out);
    assert Elements(out) == Pool() - used;
  }

  ghost function Below(hi: int): set<Number> {
    set n | MIN_NUMBER <= n < hi :: Format(n)
  }

  /** There are nine million numbers. */
  lemma {:induction false} PoolSize()
    ensures |Pool()| == 9_000_000 && Pool() == set n | 1_000_000 <= n <= 9_999_999 :: Format(n)
  {
    BelowSize(MAX_NUMBER + 1);
    assert Pool() == Below(MAX_NUMBER + 1);
  }

  lemma {:induction false} BelowSize(hi: int)
    requires MIN_NUMBER <= hi <= MAX_NUMBER + 1
    ensures |Below(hi)| == hi - MIN_NUMBER
    decreases hi
  {
    hide Format;
    if hi == MIN_NUMBER {
      assert Below(hi) == {};
    } else {
      BelowSize(hi - 1);
      assert Below(hi) == Below(hi - 1) + {Format(hi - 1)};
      if Format(hi - 1) in Below(hi - 1) {
        var n: int :| MIN_NUMBER <= n < hi - 1 && Format(n) == Format(hi - 1);
        FormatValue(n);
        FormatValue(hi - 1);
      }
    }
  }

  // ---- The tables ----

  predicate InUse(s: Store, n: Number) {
    exists k :: k in s.users && s.users[k].number == n
  }

  /** An issued token holds the number. */
  predicate Reserved(s: Store, n: Number) {
    exists h :: h in s.tokens && s.tokens[h].status.Issued? && s.tokens[h].number != "" && s.tokens[h].number == n
  }

  /** NumberAvailable, for a number that is not empty. */
  predicate Available(s: Store, n: Number) {
    !InUse(s, n) && !Reserved(s, n)
  }

  ghost predicate Taken(s: Store, used: set<Number>) {
    forall n :: n in used <==> InUse(s, n) || Reserved(s, n)
  }

  // ---- Transactions: the new store, or an error and the old one ----

  /** NewProvisionToken; the partial unique index is on issued tokens with a number. */
  function IssueToken(s: Store, h: Hash, n: Number, expires: Time): Result<Store, Error> {
    if h in s.tokens || (n != "" && Reserved(s, n)) then Err(NumberTaken)
    else Ok(s.(tokens := s.tokens[h := Token(n, expires, Issued)]))
  }

  function Revoke(s: Store, h: Hash): Result<Store, Error> {
    if h in s.tokens && s.tokens[h].status.Issued? then Ok(s.(tokens := s.tokens[h := s.tokens[h].(status := Revoked)]))
    else Err(NotFound)
  }

  function TokenError(s: Store, h: Hash, now: Time): Option<Error> {
    if h !in s.tokens then Some(NotFound)
    else match s.tokens[h].status
      case Used => Some(AlreadyUsed)
      case Revoked => Some(IsRevoked)
      case Issued => if now > s.tokens[h].expires then Some(Expired) else None
  }

  /** provisionUserOnce; `free` is what pickFreeNumber returns for the numbers taken now. */
  function ProvisionOnce(s: Store, h: Hash, k: Key, name: string, now: Time,
                         free: Option<Number>): Result<(Store, Number), Error> {
    if TokenError(s, h, now).Some? then Err(TokenError(s, h, now).value)
    else if s.tokens[h].number != "" then
      if InUse(s, s.tokens[h].number) then Err(NumberTaken) else Claim(s, h, k, name, s.tokens[h].number)
    else if free.None? then Err(NoNumbers)
    else Claim(s, h, k, name, free.value)
  }

  /** Insert the line and use up the token; keys and numbers are unique. */
  function Claim(s: Store, h: Hash, k: Key, name: string, n: Number): Result<(Store, Number), Error>
    requires h in s.tokens
  {
    if k in s.users || InUse(s, n) then Err(NumberTaken)
    else Ok((s.(users := s.users[k := Line(n, name)], tokens := s.tokens[h := s.tokens[h].(status := Used)],
                made := s.made + multiset{h}), n))
  }

  function UpdateLine(s: Store, k: Key, newName: Option<string>, newNumber: Option<Number>): Result<Store, Error>
    requires k in s.users
  {
    var line := s.users[k];
    var name := if newName.Some? then newName.value else line.name;
    if newNumber.None? || newNumber.value == line.number then Ok(s.(users := s.users[k := Line(line.number, name)]))
    else if InUse(s, newNumber.value) || (newNumber.value != "" && Reserved(s, newNumber.value)) then Err(NumberTaken)
    else Ok(s.(users := s.users[k := Line(newNumber.value, name)]))
  }

  function DeleteLine(s: Store, k: Key): Store
    requires k in s.users
  {
    s.(users := s.users - {k})
  }

  // ---- Runs ----

  datatype Request =
    | Issue(h: Hash, n: Number, expires: Time)
    | RevokeToken(h: Hash)
    | Provision(h: Hash, k: Key, name: string, now: Time, free: Option<Number>)
    | Renumber(k: Key, newName: Option<string>, newNumber: Option<Number>)
    | Delete(k: Key)

  /** What pickFreeNumber may return: a number of the pool that is not taken, or none when there is none. */
  ghost predicate Picks(s: Store, free: Option<Number>) {
    if free.Some? then free.value in Pool() && Available(s, free.value) else forall n | n in Pool() :: !Available(s, n)
  }

  ghost predicate Can(s: Store, r: Request) {
    match r
    case Provision(_, _, _, _, free) => Picks(s, free)
    case Renumber(k, _, _) => k in s.users
    case Delete(k) => k in s.users
    case _ => true
  }

  function Settled(s: Store, r: Result<Store, Error>): Store {
    if r.Ok? then r.value else s
  }

  function Next(s: Store, r: Request): Store
    requires r.Renumber? || r.Delete? ==> r.k in s.users
  {
    match r
    case Issue(h, n, expires) => Settled(s, IssueToken(s, h, n, expires))
    case RevokeToken(h) => Settled(s, Revoke(s, h))
    case Provision(h, k, name, now, free) =>
      var p := ProvisionOnce(s, h, k, name, now, free);
      if p.Ok? then p.value.0 else s
    case Renumber(k, newName, newNumber) => Settled(s, UpdateLine(s, k, newName, newNumber))
    case Delete(k) => DeleteLine(s, k)
  }

  ghost predicate Run(ss: seq<Store>, rs: seq<Request>) {
    && |ss| == |rs| + 1 && ss[0] == EMPTY
    && forall i | 0 <= i < |rs| :: Can(ss[i], rs[i]) && ss[i + 1] == Next(ss[i], rs[i])
  }

  // ---- What every store satisfies ----

  ghost predicate UniqueLines(users: map<Key, Line>) {
    forall a, b | a in users && b in users && a != b :: users[a].number != users[b].number
  }

  predicate Holds(t: Token, n: Number) {
    t.status.Issued? && t.number != "" && t.number == n
  }

  ghost predicate UniqueReservations(tokens: map<Hash, Token>) {
    forall g, h | g in tokens && h in tokens && g != h && tokens[h].status.Issued? && tokens[h].number != "" ::
      !Holds(tokens[g], tokens[h].number)
  }

  ghost predicate Apart(s: Store) {
    forall k, h | k in s.users && h in s.tokens :: !Holds(s.tokens[h], s.users[k].number)
  }

  ghost predicate OneLineEach(s: Store) {
    forall h | h in s.made :: s.made[h] == 1 && h in s.tokens && s.tokens[h].status.Used?
  }

  /** Line numbers are unique, so are reserved numbers, and a token has made at most one line. */
  ghost predicate Sane(s: Store) {
    UniqueLines(s.users) && UniqueReservations(s.tokens) && OneLineEach(s)
  }

  ghost predicate Consistent(s: Store) {
    Sane(s) && Apart(s)
  }

  /** A token is issued for no number that a line has by then. */
  predicate Asked(s: Store, r: Request) {
    r.Issue? ==> IssueToken(s, r.h, r.n, r.expires).Err? || r.n == "" || !InUse(s, r.n)
  }

  lemma {:induction false} IssueSane(s: Store, h: Hash, n: Number, expires: Time)
    requires Sane(s)
    ensures Sane(Settled(s, IssueToken(s, h, n, expires)))
  {}

  lemma {:induction false} IssueApartIff(s: Store, h: Hash, n: Number, expires: Time)
    requires Apart(s)
    ensures Apart(Settled(s, IssueToken(s, h, n, expires))) <==> Asked(s, Issue(h, n, expires))
  {
    if IssueToken(s, h, n, expires).Ok? && n != "" && InUse(s, n) {
      var k :| k in s.users && s.users[k].number == n;
      assert Holds(IssueToken(s, h, n, expires).value.tokens[h], s.users[k].number);
    }
  }

  lemma {:induction false} RevokeOk(s: Store, h: Hash)
    ensures Sane(s) ==> Sane(Settled(s, Revoke(s, h)))
    ensures Apart(s) ==> Apart(Settled(s, Revoke(s, h)))
  {}

  lemma {:induction false} ClaimSane(s: Store, h: Hash, k: Key, name: string, n: Number)
    requires Sane(s) && h in s.tokens && s.tokens[h].status.Issued?
    ensures Claim(s, h, k, name, n).Ok? ==> Sane(Claim(s, h, k, name, n).value.0)
  {}

  lemma {:induction false} ClaimApart(s: Store, h: Hash, k: Key, name: string, n: Number)
    requires Consistent(s) && h in s.tokens && s.tokens[h].status.Issued?
    requires s.tokens[h].number == n || !Reserved(s, n)
    ensures Claim(s, h, k, name, n).Ok? ==> Apart(Claim(s, h, k, name, n).value.0)
  {
    assert forall g | g in s.tokens && g != h :: !Holds(s.tokens[g], n) || n == "";
  }

  lemma {:induction false} RenumberOk(s: Store, k: Key, newName: Option<string>, newNumber: Option<Number>)
    requires k in s.users
    ensures Sane(s) ==> Sane(Settled(s, UpdateLine(s, k, newName, newNumber)))
    ensures Apart(s) ==> Apart(Settled(s, UpdateLine(s, k, newName, newNumber)))
  {}

  lemma {:induction false} DeleteOk(s: Store, k: Key)
    requires k in s.users
    ensures Sane(s) ==> Sane(DeleteLine(s, k))
    ensures Apart(s) ==> Apart(DeleteLine(s, k))
  {}

  lemma {:induction false} NextSane(s: Store, r: Request)
    requires Sane(s) && Can(s, r)
    ensures Sane(Next(s, r))
  {
    hide Sane, Apart, IssueToken, Revoke, Claim, UpdateLine, Reserved, InUse;
    match r
    case Issue(h, n, expires) => IssueSane(s, h, n, expires);
    case RevokeToken(h) => RevokeOk(s, h);
    case Provision(h, k, name, now, free) =>
      if TokenError(s, h, now).None? {
        ClaimSane(s, h, k, name, s.tokens[h].number);
        if free.Some? {
          ClaimSane(s, h, k, name, free.value);
        }
      }
    case Renumber(k, newName, newNumber) => RenumberOk(s, k, newName, newNumber);
    case Delete(k) => DeleteOk(s, k);
  }

  /** The numbers of lines and reserved numbers stay apart, exactly as long as nothing is reserved that a line has. */
  lemma {:induction false} NextApartIff(s: Store, r: Request)
    requires Consistent(s) && Can(s, r)
    ensures Apart(Next(s, r)) <==> Asked(s, r)
  {
    hide Sane, Apart, IssueToken, Revoke, Claim, UpdateLine, Reserved, InUse;
    match r
    case Issue(h, n, expires) => IssueApartIff(s, h, n, expires);
    case RevokeToken(h) => RevokeOk(s, h);
    case Provision(h, k, name, now, free) =>
      if TokenError(s, h, now).None? {
        ClaimApart(s, h, k, name, s.tokens[h].number);
        if free.Some? && s.tokens[h].number == "" {
          ClaimApart(s, h, k, name, free.value);
        }
      }
    case Renumber(k, newName, newNumber) => RenumberOk(s, k, newName, newNumber);
    case Delete(k) => DeleteOk(s, k);
  }

  /** In every store line numbers are unique, reserved numbers are unique, and a token has made at most one line. */
  lemma {:induction false} Reservations(ss: seq<Store>, rs: seq<Request>, i: nat)
    requires Run(ss, rs) && i < |ss|
    ensures Sane(ss[i])
  {
    hide Sane, Can, Next;
    if i == 0 {
      EmptyOk();
    } else {
      Reservations(ss, rs, i - 1);
      NextSane(ss[i - 1], rs[i - 1]);
    }
  }

  lemma {:induction false} EmptyOk()
    ensures Consistent(EMPTY)
  {}

  /** Reserved numbers are nobody's line in every store, exactly when none was in use at the moment it was reserved. */
  lemma {:induction false} ApartIff(ss: seq<Store>, rs: seq<Request>, i: nat)
    requires Run(ss, rs) && i < |ss|
    ensures (forall j | 0 <= j <= i :: Apart(ss[j])) <==> (forall j | 0 <= j < i :: Asked(ss[j], rs[j]))
  {
    hide Sane, Apart, Can, Next, Asked;
    if i == 0 {
      EmptyOk();
    } else {
      ApartIff(ss, rs, i - 1);
      Reservations(ss, rs, i - 1);
      if Apart(ss[i - 1]) {
        NextApartIff(ss[i - 1], rs[i - 1]);
      }
      assert (forall j | 0 <= j <= i :: Apart(ss[j])) <==> (forall j | 0 <= j <= i - 1 :: Apart(ss[j])) && Apart(ss[i]);
      assert (forall j | 0 <= j < i :: Asked(ss[j], rs[j]))
        <==> (forall j | 0 <= j < i - 1 :: Asked(ss[j], rs[j])) && Asked(ss[i - 1], rs[i - 1]);
    }
  }

  /**
    A reservation is honoured: whoever claims an unexpired issued token for a fixed number, with a new key, gets that
    number, exactly when no line has it; and none has if none had when it was reserved.
   */
  lemma {:induction false} ReservationHonouredIff(ss: seq<Store>, rs: seq<Request>, i: nat, h: Hash, k: Key,
                                                  name: string, now: Time, free: Option<Number>)
    requires Run(ss, rs) && i < |ss| && h in ss[i].tokens && ss[i].tokens[h].status.Issued?
      && ss[i].tokens[h].number != ""
    requires now <= ss[i].tokens[h].expires && k !in ss[i].users
    ensures var n, p := ss[i].tokens[h].number, ProvisionOnce(ss[i], h, k, name, now, free);
            && (if InUse(ss[i], n) then p == Err(NumberTaken)
                else p.Ok? && p.value.1 == n && p.value.0.users == ss[i].users[k := Line(n, name)]
                     && p.value.0.tokens[h].status.Used?)
            && ((forall j | 0 <= j < i :: Asked(ss[j], rs[j])) ==> !InUse(ss[i], n))
  {
    hide Can, Next, Asked, Sane;
    ApartIff(ss, rs, i);
    if forall j | 0 <= j < i :: Asked(ss[j], rs[j]) {
      assert Apart(ss[i]) && Holds(ss[i].tokens[h], ss[i].tokens[h].number);
    }
  }

  /**
    A claim succeeds exactly when the token is good, the key is new and there is a number: the reserved one, or any.
   */
  lemma {:induction false} ClaimSucceedsIff(ss: seq<Store>, rs: seq<Request>, i: nat, h: Hash, k: Key, name: string,
                                            now: Time, free: Option<Number>)
    requires Run(ss, rs) && i < |ss| && Picks(ss[i], free)
    ensures ProvisionOnce(ss[i], h, k, name, now, free).Ok? <==>
              && h in ss[i].tokens && ss[i].tokens[h].status.Issued? && now <= ss[i].tokens[h].expires
              && k !in ss[i].users
              && if ss[i].tokens[h].number != "" then !InUse(ss[i], ss[i].tokens[h].number) else free.Some?
  {
    hide Pool, Can, Next;
  }

  predicate Later(a: Status, b: Status) {
    a == b || a.Issued?
  }

  /** A token keeps its number and expiry, and only goes from issued to used or revoked. */
  lemma {:induction false} StatusesOnlyAdvance(ss: seq<Store>, rs: seq<Request>, i: nat, j: nat, h: Hash)
    requires Run(ss, rs) && i <= j < |ss| && h in ss[i].tokens
    ensures h in ss[j].tokens && Later(ss[i].tokens[h].status, ss[j].tokens[h].status)
    ensures ss[j].tokens[h].number == ss[i].tokens[h].number && ss[j].tokens[h].expires == ss[i].tokens[h].expires
    decreases j
  {
    hide Can, Next;
    if i < j {
      StatusesOnlyAdvance(ss, rs, i, j - 1, h);
      StatusStep(ss[j - 1], rs[j - 1], h);
    }
  }

  lemma {:induction false} StatusStep(s: Store, r: Request, h: Hash)
    requires Can(s, r) && h in s.tokens
    ensures var s' := Next(s, r);
            && h in s'.tokens && Later(s.tokens[h].status, s'.tokens[h].status)
            && s'.tokens[h].number == s.tokens[h].number && s'.tokens[h].expires == s.tokens[h].expires
  {
    hide InUse, Reserved;
  }

  /** A token that is issued is there as it was asked for, or it is refused; nothing else changes. */
  lemma {:induction false} IssueMakes(ss: seq<Store>, rs: seq<Request>, i: nat)
    requires Run(ss, rs) && i < |rs| && rs[i].Issue?
    ensures var s, s', r := ss[i], ss[i + 1], rs[i];
            && s'.users == s.users && s'.made == s.made
            && s'.tokens == if r.h !in s.tokens && (r.n == "" || !Reserved(s, r.n))
                            then s.tokens[r.h := Token(r.n, r.expires, Issued)] else s.tokens
  {
    hide Reserved;
  }

  /** A token that was revoked holds no number, makes no line, and is refused, ever after. */
  lemma {:induction false} RevokedForGood(ss: seq<Store>, rs: seq<Request>, i: nat, j: nat, h: Hash, k: Key,
                                          name: string, now: Time, free: Option<Number>)
    requires Run(ss, rs) && i < j < |ss| && i < |rs| && rs[i] == RevokeToken(h)
    requires h in ss[i].tokens && ss[i].tokens[h].status.Issued?
    ensures ss[i + 1] == ss[i].(tokens := ss[i].tokens[h := ss[i].tokens[h].(status := Revoked)])
    ensures h in ss[j].tokens && ss[j].tokens[h].status.Revoked? && ss[j].made[h] == 0
    ensures forall n :: !Holds(ss[j].tokens[h], n)
    ensures ProvisionOnce(ss[j], h, k, name, now, free) == Err(IsRevoked)
  {
    assert ss[i + 1].tokens[h].status.Revoked?;
    StatusesOnlyAdvance(ss, rs, i + 1, j, h);
    Reservations(ss, rs, j);
    hide Run, Claim;
    assert h !in ss[j].made;
  }

  /** What a claim that succeeded made: one line with its number and its name; the token is used up for good. */
  lemma {:induction false} ClaimMakes(ss: seq<Store>, rs: seq<Request>, i: nat, j: nat, k: Key, name: string,
                                      now: Time, free: Option<Number>)
    requires Run(ss, rs) && i < j < |ss| && i < |rs| && rs[i].Provision?
    requires ProvisionOnce(ss[i], rs[i].h, rs[i].k, rs[i].name, rs[i].now, rs[i].free).Ok?
    ensures var s, s', r := ss[i], ss[i + 1], rs[i];
            && r.h in s.tokens && r.k !in s.users
            && var n := if s.tokens[r.h].number != "" then s.tokens[r.h].number else Chosen(r.free);
               && !InUse(s, n) && s'.users == s.users[r.k := Line(n, r.name)]
               && s'.tokens == s.tokens[r.h := s.tokens[r.h].(status := Used)]
    ensures rs[i].h in ss[j].tokens && ss[j].tokens[rs[i].h].status.Used? && ss[j].made[rs[i].h] <= 1
    ensures ProvisionOnce(ss[j], rs[i].h, k, name, now, free) == Err(AlreadyUsed)
  {
    assert Can(ss[i], rs[i]) && ss[i + 1] == Next(ss[i], rs[i]);
    StatusesOnlyAdvance(ss, rs, i + 1, j, rs[i].h);
    Reservations(ss, rs, j);
    hide Run, Picks;
    assert rs[i].h in ss[j].made ==> ss[j].made[rs[i].h] == 1;
  }

  function Chosen(free: Option<Number>): Number {
    if free.Some? then free.value else ""
  }

  /**
    Renaming or renumbering changes just that line, to what is asked for; it is refused exactly if the number is new to
    the line, and taken by another line or reserved.
   */
  lemma {:induction false} RenumberDoes(ss: seq<Store>, rs: seq<Request>, i: nat)
    requires Run(ss, rs) && i < |rs| && rs[i].Renumber?
    ensures var s, s', k := ss[i], ss[i + 1], rs[i].k;
            && k in s.users && s'.tokens == s.tokens
            && var n := if rs[i].newNumber.Some? then rs[i].newNumber.value else s.users[k].number;
               var taken := (exists x :: x in s.users && x != k && s.users[x].number == n)
                            || (n != s.users[k].number && n != "" && Reserved(s, n));
               s'.users == if taken then s.users
                           else s.users[k := Line(n,
                             if rs[i].newName.Some? then rs[i].newName.value else s.users[k].name)]
  {
    assert Can(ss[i], rs[i]) && ss[i + 1] == Next(ss[i], rs[i]);
    Reservations(ss, rs, i);
    var s, k := ss[i], rs[i].k;
    var n := if rs[i].newNumber.Some? then rs[i].newNumber.value else s.users[k].number;
    if n == s.users[k].number {
      assert forall x | x in s.users && x != k :: s.users[x].number != n;
    } else {
      assert InUse(s, n) <==> exists x :: x in s.users && x != k && s.users[x].number == n;
    }
    hide Run, Reserved;
  }

  /** Deleting takes out just that line, and its number is free again unless a token reserves it. */
  lemma {:induction false} DeleteFrees(ss: seq<Store>, rs: seq<Request>, i: nat)
    requires Run(ss, rs) && i < |rs| && rs[i].Delete?
    ensures var s, s', k := ss[i], ss[i + 1], rs[i].k;
            && k in s.users && s'.tokens == s.tokens && s'.made == s.made
            && s'.users.Keys == s.users.Keys - {k} && (forall x | x in s'.users :: s'.users[x] == s.users[x])
            && (Available(s', s.users[k].number) <==> !Reserved(s, s.users[k].number))
  {
    assert Can(ss[i], rs[i]) && ss[i + 1] == Next(ss[i], rs[i]);
    Reservations(ss, rs, i);
    hide Run;
  }

  /** A line stays as it is until it is renumbered, renamed or deleted. */
  lemma {:induction false} LineStays(ss: seq<Store>, rs: seq<Request>, i: nat, j: nat, k: Key)
    requires Run(ss, rs) && i <= j < |ss| && k in ss[i].users
    requires forall a | i <= a < j && a < |rs| :: !((rs[a].Renumber? || rs[a].Delete?) && rs[a].k == k)
    ensures k in ss[j].users && ss[j].users[k] == ss[i].users[k]
    decreases j
  {
    hide InUse, Reserved, Picks;
    if i < j {
      LineStays(ss, rs, i, j - 1, k);
      assert ss[j] == Next(ss[j - 1], rs[j - 1]);
    }
  }

  lemma {:induction false} OneMore(ss: seq<Store>, rs: seq<Request>, r: Request)
    returns (ss': seq<Store>, rs': seq<Request>)
    requires Run(ss, rs) && Can(ss[|rs|], r)
    ensures Run(ss', rs') && ss' == ss + [Next(ss[|rs|], r)] && rs' == rs + [r] && |ss'| == |rs'| + 1
  {
    hide Next, Picks;
    ss', rs' := ss + [Next(ss[|rs|], r)], rs + [r];
  }

  /**
    The admin handler asks and issues in two transactions. Here a line is made, "5550001" is free when the handler
    asks, the line is renumbered, and the handler issues its token: for as long as the line has the number,
    the token cannot be claimed.
   */
  lemma {:induction false} CheckThenIssueCanCollide() returns (ss: seq<Store>, rs: seq<Request>)
    ensures Run(ss, rs) && |rs| == 4 && |ss| == 5 && Available(ss[2], "5550001") && rs[3] == Issue("h", "5550001", 10)
    ensures !Apart(ss[4]) && ProvisionOnce(ss[4], "h", 2, "", 5, None) == Err(NumberTaken)
  {
    ss, rs := OneLine();
    hide Run, Pool;
    assert !InUse(ss[2], "5550001");
    ss, rs := OneMore(ss, rs, Renumber(1, None, Some("5550001")));
    assert ss[3].users[1].number == "5550001";
    ss, rs := OneMore(ss, rs, Issue("h", "5550001", 10));
    assert Holds(ss[4].tokens["h"], ss[4].users[1].number);
    assert InUse(ss[4], "5550001");
  }

  lemma {:induction false} OneLine() returns (ss: seq<Store>, rs: seq<Request>)
    ensures Run(ss, rs) && |rs| == 2 && |ss| == 3 && ss[2].users == map[1 := Line("5550000", "")]
    ensures ss[2].tokens == map["g" := Token("5550000", 10, Used)]
  {
    ss, rs := [EMPTY], [];
    assert Run(ss, rs);
    hide Run, Pool;
    ss, rs := OneMore(ss, rs, Issue("g", "5550000", 10));
    ss, rs := OneMore(ss, rs, Provision("g", 1, "", 5, SomePick(ss[1])));
  }

  // ---- The store ----

  /** r and the store s' are what provisionUserOnce gives for some free number it may pick. */
  ghost predicate Attempted(s: Store, h: Hash, k: Key, name: string, now: Time, r: Result<Number, Error>, s': Store) {
    exists free :: Picks(s, free) && Gives(ProvisionOnce(s, h, k, name, now, free), r, s, s')
  }

  predicate Gives(p: Result<(Store, Number), Error>, r: Result<Number, Error>, s: Store, s': Store) {
    match p
    case Ok((t, n)) => r == Result.Ok(n) && s' == t
    case Err(e) => r == Err(e) && s' == s
  }

  /** Some number pickFreeNumber may return. */
  ghost function SomePick(s: Store): (free: Option<Number>)
    ensures Picks(s, free)
  {
    if exists n :: n in Pool() && Available(s, n) then
      var n :| n in Pool() && Available(s, n);
      Some(n)
    else None
  }

  class LineStore {
    var users: map<Key, Line>
    var tokens: map<Hash, Token>
    ghost var made: multiset<Hash>

    ghost function Now(): Store
      reads this
    {
      Store(users, tokens, made)
    }

    constructor ()
      ensures Now() == EMPTY && Consistent(Now())
    {
      users, tokens, made := map[], map[], multiset{};
      new;
      EmptyOk();
    }

    /** The key of the line with this number, if there is one. */
    method LineWith(n: Number) returns (k: Option<Key>)
      ensures k.Some? <==> InUse(Now(), n)
      ensures k.Some? ==> k.value in users && users[k.value].number == n
    {
      k := None;
      var todo := users.Keys;
      while todo != {}
        invariant todo <= users.Keys && forall x | x in users && x !in todo :: users[x].number != n
        decreases |todo|
      {
        var x := AnyKey(todo);
        if users[x].number == n {
          return Some(x);
        }
        todo := todo - {x};
      }
    }

    /** Whether an issued token holds this number. */
    method IsReserved(n: Number) returns (reserved: bool)
      ensures reserved <==> Reserved(Now(), n)
    {
      var todo := tokens.Keys;
      while todo != {}
        invariant todo <= tokens.Keys && forall h | h in tokens && h !in todo :: !Holds(tokens[h], n)
        decreases |todo|
      {
        var h := AnyHash(todo);
        if tokens[h].status.Issued? && tokens[h].number != "" && tokens[h].number == n {
          return true;
        }
        todo := todo - {h};
      }
      return false;
    }

    method NumberAvailable(n: Number) returns (free: bool)
      ensures free <==> Available(Now(), n)
    {
      var k := LineWith(n);
      if k.Some? {
        return false;
      }
      var reserved := IsReserved(n);
      return !reserved;
    }

    method NewProvisionToken(h: Hash, n: Number, expires: Time) returns (r: Option<Error>)
      modifies this
      ensures Now() == Settled(old(Now()), IssueToken(old(Now()), h, n, expires))
      ensures r == if IssueToken(old(Now()), h, n, expires).Ok? then None else Some(NumberTaken)
    {
      hide Reserved;
      var reserved := IsReserved(n);
      if h in tokens || (n != "" && reserved) {
        return Some(NumberTaken);
      }
      tokens := tokens[h := Token(n, expires, Issued)];
      return None;
    }

    method RevokeProvisionToken(h: Hash) returns (r: Option<Error>)
      modifies this
      ensures Now() == Settled(old(Now()), Revoke(old(Now()), h))
      ensures r == if Revoke(old(Now()), h).Ok? then None else Some(NotFound)
    {
      if h in tokens && tokens[h].status.Issued? {
        tokens := tokens[h := tokens[h].(status := Revoked)];
        return None;
      }
      return Some(NotFound);
    }

    /** takenNumberSet. */
    method TakenNumberSet() returns (used: set<Number>)
      ensures Taken(Now(), used)
    {
      used := {};
      var todo := users.Keys;
      while todo != {}
        invariant todo <= users.Keys
        invariant forall n :: n in used <==> exists k :: k in users && k !in todo && users[k].number == n
        decreases |todo|
      {
        var k := AnyKey(todo);
        used := used + {users[k].number};
        todo := todo - {k};
      }
      ghost var lines := used;
      var rest := tokens.Keys;
      while rest != {}
        invariant rest <= tokens.Keys
        invariant forall n :: n in used <==> n in lines || exists h :: h in tokens && h !in rest && Holds(tokens[h], n)
        decreases |rest|
      {
        var h := AnyHash(rest);
        if tokens[h].status.Issued? && tokens[h].number != "" {
          used := used + {tokens[h].number};
        }
        rest := rest - {h};
      }
    }

    method PickFreeNumber(draws: seq<int>) returns (free: Option<Number>)
      requires |draws| == 2000 && forall i | 0 <= i < |draws| :: InPool(draws[i])
      ensures Picks(Now(), free)
    {
      var used := TakenNumberSet();
      var out, _ := PickFreeNumbers(1, used, draws);
      PickedOne(Now(), used, out);
      free := if |out| == 0 then None else Some(out[0]);
    }

    method ProvisionUserOnce(h: Hash, k: Key, name: string, now: Time, draws: seq<int>)
      returns (r: Result<Number, Error>, ghost free: Option<Number>)
      requires |draws| == 2000 && forall i | 0 <= i < |draws| :: InPool(draws[i])
      modifies this
      ensures Picks(old(Now()), free)
      ensures Gives(ProvisionOnce(old(Now()), h, k, name, now, free), r, old(Now()), Now())
    {
      hide Picks, InUse;
      free := SomePick(Now());
      if h !in tokens {
        return Err(NotFound), free;
      }
      var t := tokens[h];
      if t.status.Used? {
        return Err(AlreadyUsed), free;
      }
      if t.status.Revoked? {
        return Err(IsRevoked), free;
      }
      if now > t.expires {
        return Err(Expired), free;
      }
      var n := t.number;
      if n != "" {
        var holder := LineWith(n);
        if holder.Some? {
          return Err(NumberTaken), free;
        }
      } else {
        var picked := PickFreeNumber(draws);
        free := picked;
        if picked.None? {
          return Err(NoNumbers), free;
        }
        n := picked.value;
      }
      var holder := LineWith(n);
      if k in users || holder.Some? {
        return Err(NumberTaken), free;
      }
      users := users[k := Line(n, name)];
      tokens := tokens[h := t.(status := Used)];
      made := made + multiset{h};
      return Result.Ok(n), free;
    }

    /**
      Up to five attempts, again only after a lost race for a number. Other transactions run between the attempts;
      found has the tables as each attempt finds them.
     */
    method ProvisionUser(h: Hash, k: Key, name: string, now: Time, draws: seq<seq<int>>, found: seq<Store>)
      returns (r: Result<Number, Error>, ghost last: nat)
      requires |draws| == 5
      requires forall a | 0 <= a < 5 :: |draws[a]| == 2000 && forall i | 0 <= i < 2000 :: InPool(draws[a][i])
      requires |found| == 5 && found[0] == Now()
      modifies this
      ensures h == "" ==> r == Err(Required) && Now() == old(Now())
      ensures h != "" ==>
                && last < 5 && Attempted(found[last], h, k, name, now, r, Now())
                && (r == Err(NumberTaken) ==> last == 4)
                && forall a | 0 <= a < last :: Attempted(found[a], h, k, name, now, Err(NumberTaken), found[a])
    {
      hide Picks, ProvisionOnce;
      last := 0;
      if h == "" {
        return Err(Required), last;
      }
      ghost var free: Option<Number>;
      r, free := ProvisionUserOnce(h, k, name, now, draws[0]);
      var attempt := 1;
      while attempt < 5 && r == Err(NumberTaken)
        invariant 1 <= attempt <= 5 && last == attempt - 1
        invariant Attempted(found[last], h, k, name, now, r, Now())
        invariant forall a | 0 <= a < last :: Attempted(found[a], h, k, name, now, Err(NumberTaken), found[a])
      {
        users, tokens, made := found[attempt].users, found[attempt].tokens, found[attempt].made;
        r, free := ProvisionUserOnce(h, k, name, now, draws[attempt]);
        last := attempt;
        attempt := attempt + 1;
      }
    }

    method UpdateLineByNumber(n: Number, newName: Option<string>, newNumber: Option<Number>) returns (r: Option<Error>)
      requires UniqueLines(users)
      modifies this
      ensures !InUse(old(Now()), n) ==> r == Some(LineNotFound) && Now() == old(Now())
      ensures forall k | k in old(users) && old(users)[k].number == n ::
                var u := UpdateLine(old(Now()), k, newName, newNumber);
                Now() == Settled(old(Now()), u) && r == if u.Ok? then None else Some(NumberTaken)
    {
      hide InUse, Reserved;
      var holder := LineWith(n);
      if holder.None? {
        NoHolder(Now(), n);
        return Some(LineNotFound);
      }
      var k := holder.value;
      OneHolder(Now(), k);
      var name := if newName.Some? then newName.value else users[k].name;
      var target := n;
      if newNumber.Some? && newNumber.value != n {
        var other := LineWith(newNumber.value);
        var reserved := IsReserved(newNumber.value);
        if other.Some? || (newNumber.value != "" && reserved) {
          return Some(NumberTaken);
        }
        target := newNumber.value;
      }
      users := users[k := Line(target, name)];
      return None;
    }

    method DeleteLineByNumber(n: Number) returns (r: Option<Error>)
      requires UniqueLines(users)
      modifies this
      ensures !InUse(old(Now()), n) ==> r == Some(LineNotFound) && Now() == old(Now())
      ensures forall k | k in old(users) && old(users)[k].number == n :: Now() == DeleteLine(old(Now()), k) && r == None
    {
      hide InUse, Reserved;
      var holder := LineWith(n);
      if holder.None? {
        NoHolder(Now(), n);
        return Some(LineNotFound);
      }
      OneHolder(Now(), holder.value);
      users := users - {holder.value};
      return None;
    }
  }

  method AnyKey(keys: set<Key>) returns (k: Key)
    requires keys != {}
    ensures k in keys
  {
    if forall x :: x !in keys {
      assert false;
    }
    k :| k in keys;
  }

  method AnyHash(keys: set<Hash>) returns (h: Hash)
    requires keys != {}
    ensures h in keys
  {
    if forall x :: x !in keys {
      assert false;
    }
    h :| h in keys;
  }

  lemma {:induction false} NoHolder(s: Store, n: Number)
    requires !InUse(s, n)
    ensures forall k | k in s.users :: s.users[k].number != n
  {}

  lemma {:induction false} OneHolder(s: Store, k: Key)
    requires UniqueLines(s.users) && k in s.users
    ensures InUse(s, s.users[k].number)
    ensures forall x | x in s.users && s.users[x].number == s.users[k].number :: x == k
  {}

  lemma {:induction false} PickedOne(s: Store, used: set<Number>, out: seq<Number>)
    requires Taken(s, used) && Elements(out) <= Pool() && Elements(out) !! used
    requires |out| == if 1 <= |Pool() - used| then 1 else |Pool() - used|
    ensures Picks(s, if |out| == 0 then None else Some(out[0]))
  {
    hide Pool;
    if |out| == 0 {
      assert Pool() - used == {};
      forall n | n in Pool() ensures !Available(s, n) {
        assert n !in Pool() - used;
      }
    } else {
      assert out[0] in Elements(out);
    }
  }
}
