/**
  Area codes of the registry.
 */
module Registry {
  import opened Options

  // Who may have which code, automatic assignment, re-registration and removal. Keys of servers are compared, never
  // used; whether a signature checks out is a parameter.

  type Code = string
  type Key = int

  datatype Server = Server(name: string, address: string, key: Key)
  datatype Error = AreaInvalid | AreaTaken | NoFreeAreas | ServerNotFound | BadSignature

  type Servers = map<Code, Server>

  const RESERVED_A := "800"
  const RESERVED_B := "900"

  // ---- Codes ----

  predicate IsDigit(c: char) {
    '0' <= c <= '9'
  }

  function DigitOf(c: char): int {
    c as int - '0' as int
  }

  /** AllowedArea. */
  predicate AllowedArea(area: Code) {
    && |area| == 3 && area != RESERVED_A && area != RESERVED_B
    && IsDigit(area[0]) && IsDigit(area[1]) && IsDigit(area[2])
    && 200 <= (DigitOf(area[0]) * 10 + DigitOf(area[1])) * 10 + DigitOf(area[2]) <= 999
  }

  function Digit(d: int): char
    requires 0 <= d < 10
  {
    (d + '0' as int) as char
  }

  /** "%03d" */
  function Format(n: int): Code
    requires 0 <= n < 1000
  {
    [Digit(n / 100), Digit(n / 10 % 10), Digit(n % 10)]
  }

  /** The codes that may be assigned are the numbers 200 to 999 without 800 and 900, each once. */
  lemma {:induction false} FormatAllowed(n: int)
    requires 0 <= n < 1000
    ensures AllowedArea(Format(n)) <==> 200 <= n && n != 800 && n != 900
    ensures forall m | 0 <= m < 1000 && Format(m) == Format(n) :: m == n
  {
    FormatValue(n);
    forall m | 0 <= m < 1000 && Format(m) == Format(n) ensures m == n { FormatValue(m); }
    FormatValue(800);
    FormatValue(900);
    assert Format(800) == RESERVED_A && Format(900) == RESERVED_B;
  }

  function Value(s: Code): int
    requires |s| == 3
  {
    (DigitOf(s[0]) * 10 + DigitOf(s[1])) * 10 + DigitOf(s[2])
  }

  lemma {:induction false} FormatValue(n: int)
    requires 0 <= n < 1000
    ensures |Format(n)| == 3 && Value(Format(n)) == n && IsDigit(Format(n)[0]) && IsDigit(Format(n)[1])
      && IsDigit(Format(n)[2])
  {
    assert (n / 100 * 10 + n / 10 % 10) * 10 + n % 10 == n;
  }

  lemma {:induction false} AllowedFormat(area: Code)
    requires AllowedArea(area)
    ensures 200 <= Value(area) <= 999 && area == Format(Value(area))
  {
    var a, b, c := DigitOf(area[0]), DigitOf(area[1]), DigitOf(area[2]);
    var n := (a * 10 + b) * 10 + c;
    assert n / 100 == a && n / 10 % 10 == b && n % 10 == c;
  }

  /** pickFree: 500 draws from 200 to 799, then a scan; `used` is the set of codes in the table. */
  method PickFree(used: set<Code>, draws: seq<int>) returns (r: Option<Code>)
    requires |draws| == 500 && forall i | 0 <= i < |draws| :: 200 <= draws[i] < 800
    ensures r.Some? ==> AllowedArea(r.value) && r.value !in used
    ensures r.None? <==> forall c | AllowedArea(c) :: c in used
  {
    hide AllowedArea, Format;
    var i := 0;
    while i < 500
      invariant 0 <= i <= 500
    {
      FormatAllowed(draws[i]);
      var c := Format(draws[i]);
      if c !in used {
        return Some(c);
      }
      i := i + 1;
    }
    var n := 200;
    while n <= 999
      invariant 200 <= n <= 1000
      invariant forall m | 200 <= m < n && AllowedArea(Format(m)) :: Format(m) in used
    {
      var c := Format(n);
      if c !in used && AllowedArea(c) {
        return Some(c);
      }
      n := n + 1;
    }
    forall c | AllowedArea(c)
      ensures c in used
    {
      AllowedFormat(c);
    }
    return None;
  }

  ghost function AllowedCodes(): set<Code> {
    set n | 200 <= n < 1000 && AllowedArea(Format(n)) :: Format(n)
  }

  ghost function AllowedBelow(hi: int): set<Code>
    requires 200 <= hi <= 1000
  {
    set n | 200 <= n < hi && AllowedArea(Format(n)) :: Format(n)
  }

  /** There are 798 of them. */
  lemma {:induction false} AllowedCount()
    ensures |AllowedCodes()| == 798
    ensures forall c :: c in AllowedCodes() <==> AllowedArea(c)
  {
    CountBelow(1000);
    assert AllowedCodes() == AllowedBelow(1000);
    forall c ensures c in AllowedCodes() <==> AllowedArea(c) {
      if AllowedArea(c) {
        AllowedFormat(c);
      }
    }
  }

  lemma {:induction false} CountBelow(hi: int)
    requires 200 <= hi <= 1000
    ensures |AllowedBelow(hi)| == hi - 200 - (if hi > 800 then 1 else 0) - (if hi > 900 then 1 else 0)
    decreases hi
  {
    hide AllowedArea, Format;
    if hi == 200 {
      assert AllowedBelow(hi) == {};
    } else {
      CountBelow(hi - 1);
      FormatAllowed(hi - 1);
      if AllowedArea(Format(hi - 1)) {
        assert AllowedBelow(hi) == AllowedBelow(hi - 1) + {Format(hi - 1)};
      } else {
        assert AllowedBelow(hi) == AllowedBelow(hi - 1);
      }
    }
  }

  // ---- Registration and removal ----

  predicate IsSpace(c: char) {
    c == ' ' || c == '\t' || c == '\n' || c == '\r' || c == 11 as char || c == 12 as char || c == 0x85 as char
      || c == 0xa0 as char
  }

  /** strings.TrimSpace. */
  function Trim(s: string): string
    decreases |s|
  {
    if s == "" then s
    else if IsSpace(s[0]) then Trim(s[1..])
    else if IsSpace(s[|s| - 1]) then Trim(s[..|s| - 1])
    else s
  }

  /** Of what was asked for, only the space at both ends is left out; letters and digits are not space. */
  lemma {:induction false} Trimmed(s: string) returns (before: string, after: string)
    ensures s == before + Trim(s) + after
    ensures forall c | c in before + after :: IsSpace(c)
    ensures var t := Trim(s); t != "" ==> !IsSpace(t[0]) && !IsSpace(t[|t| - 1])
    ensures IsSpace(' ') && IsSpace('\n') && IsSpace('\t')
      && !exists c | 'a' <= c <= 'z' || '0' <= c <= '9' :: IsSpace(c)
    decreases |s|
  {
    before, after := "", "";
    if s != "" && IsSpace(s[0]) {
      var b, a := Trimmed(s[1..]);
      before, after := [s[0]] + b, a;
      assert before + after == [s[0]] + (b + a) && s == before + Trim(s) + after;
    } else if s != "" && IsSpace(s[|s| - 1]) {
      var b, a := Trimmed(s[..|s| - 1]);
      before, after := b, a + [s[|s| - 1]];
      assert before + after == b + a + [s[|s| - 1]] && s == before + Trim(s) + after;
    }
  }

  /** RegisterServer; `free` is what pickFree returns. */
  function Register(servers: Servers, area: string, info: Server, free: Option<Code>): Result<(Servers, Code), Error> {
    var code := Trim(area);
    if code == "" then
      if free.None? then Err(NoFreeAreas) else Insert(servers, free.value, info)
    else if !AllowedArea(code) then Err(AreaInvalid)
    else if code in servers then
      if servers[code].key == info.key then
        Ok((servers[code := servers[code].(name := info.name, address := info.address)], code))
      else Err(AreaTaken)
    else Insert(servers, code, info)
  }

  function Insert(servers: Servers, code: Code, info: Server): Result<(Servers, Code), Error> {
    if code in servers then Err(AreaTaken) else Ok((servers[code := info], code))
  }

  function Deregister(servers: Servers, area: Code, signed: bool): Result<Servers, Error> {
    if area !in servers then Err(ServerNotFound)
    else if !signed then Err(BadSignature)
    else Ok(servers - {area})
  }

  // ---- Runs ----

  datatype Request = Join(area: string, info: Server, free: Option<Code>) | Leave(code: Code, signed: bool)

  ghost predicate Picks(servers: Servers, free: Option<Code>) {
    if free.Some? then AllowedArea(free.value) && free.value !in servers else forall c | AllowedArea(c) :: c in servers
  }

  ghost predicate Can(servers: Servers, r: Request) {
    r.Join? ==> Picks(servers, r.free)
  }

  function Next(servers: Servers, r: Request): Servers {
    match r
    case Join(area, info, free) =>
      var o := Register(servers, area, info, free);
      if o.Ok? then o.value.0 else servers
    case Leave(code, signed) =>
      var o := Deregister(servers, code, signed);
      if o.Ok? then o.value else servers
  }

  ghost predicate Run(ss: seq<Servers>, rs: seq<Request>) {
    && |ss| == |rs| + 1 && ss[0] == map[]
    && forall i | 0 <= i < |rs| :: Can(ss[i], rs[i]) && ss[i + 1] == Next(ss[i], rs[i])
  }

  ghost predicate AllAllowed(servers: Servers) {
    forall c | c in servers :: AllowedArea(c)
  }

  /** Every code ever handed out is an allowed one, and there are never more than 798 of them. */
  lemma {:induction false} OnlyAllowedCodes(ss: seq<Servers>, rs: seq<Request>, i: nat)
    requires Run(ss, rs) && i < |ss|
    ensures AllAllowed(ss[i]) && |ss[i]| <= 798
  {
    hide AllowedArea, Trim;
    AllAllowedAt(ss, rs, i);
    AllowedCount();
    AtMost(ss[i]);
  }

  lemma {:induction false} AtMost(servers: Servers)
    requires AllAllowed(servers) && (forall c :: c in AllowedCodes() <==> AllowedArea(c))
    ensures |servers| <= |AllowedCodes()|
    ensures (forall c | AllowedArea(c) :: c in servers) <==> |servers| == |AllowedCodes()|
  {
    hide AllowedArea, AllowedCodes;
    var all := AllowedCodes();
    assert servers.Keys <= all;
    assert all == servers.Keys + (all - servers.Keys);
    assert |servers.Keys| == |servers|;
    if |servers| == |all| {
      assert all - servers.Keys == {};
      forall c | AllowedArea(c) ensures c in servers { assert c !in all - servers.Keys; }
    }
  }

  lemma {:induction false} AllAllowedAt(ss: seq<Servers>, rs: seq<Request>, i: nat)
    requires Run(ss, rs) && i < |ss|
    ensures AllAllowed(ss[i])
  {
    hide AllowedArea, Trim;
    if i > 0 {
      AllAllowedAt(ss, rs, i - 1);
    }
  }

  /** Automatic assignment fails exactly when 798 servers are registered. */
  lemma {:induction false} FullExactlyAt798(ss: seq<Servers>, rs: seq<Request>, i: nat, area: string, info: Server,
                                            free: Option<Code>)
    requires Run(ss, rs) && i < |ss| && Picks(ss[i], free) && Trim(area) == ""
    ensures Register(ss[i], area, info, free) == Err(NoFreeAreas) <==> |ss[i]| == 798
    ensures |ss[i]| < 798 ==> Register(ss[i], area, info, free).Ok?
  {
    hide AllowedArea, Trim;
    AllAllowedAt(ss, rs, i);
    AllowedCount();
    AtMost(ss[i]);
  }

  /** No signed removal of this code among the requests from i up to j. */
  predicate Kept(rs: seq<Request>, i: nat, j: nat, code: Code)
    requires i <= j <= |rs|
  {
    forall k | i <= k < j :: !(rs[k].Leave? && rs[k].code == code && rs[k].signed)
  }

  /** The key of an area stays what it is until that area is deregistered. */
  lemma {:induction false} KeyStays(ss: seq<Servers>, rs: seq<Request>, i: nat, j: nat, code: Code)
    requires Run(ss, rs) && i <= j < |ss| && code in ss[i]
    requires Kept(rs, i, j, code)
    ensures code in ss[j] && ss[j][code].key == ss[i][code].key
    decreases j
  {
    hide AllowedArea, Trim;
    if i < j {
      KeyStays(ss, rs, i, j - 1, code);
    }
  }

  /**
    Whoever has an area keeps it until it is deregistered: for its key every further registration succeeds with the
    same code and only refreshes the details, and for every other key it is refused.
   */
  lemma {:induction false} OwnerKeeps(ss: seq<Servers>, rs: seq<Request>, i: nat, j: nat, code: Code, area: string,
                                      info: Server, free: Option<Code>)
    requires Run(ss, rs) && i <= j < |ss| && code in ss[i] && Trim(area) == code
    requires Kept(rs, i, j, code)
    ensures Register(ss[j], area, info, free)
         == if info.key == ss[i][code].key then Ok((ss[j][code := info], code)) else Err(AreaTaken)
    ensures ss[j][code := info].Keys == ss[j].Keys
  {
    KeyStays(ss, rs, i, j, code);
    AllAllowedAt(ss, rs, j);
    AllowedLength(code);
    hide AllowedArea, Trim, Run;
  }

  /**
    A registration is refused exactly when there is no code left, the code asked for is none, or another key has it.
   */
  lemma {:induction false} RefusedIff(ss: seq<Servers>, rs: seq<Request>, i: nat, area: string, info: Server,
                                      free: Option<Code>)
    requires Run(ss, rs) && i < |ss| && Picks(ss[i], free)
    ensures var code := Trim(area);
            Register(ss[i], area, info, free).Err? <==>
              if code == "" then |ss[i]| == 798
              else !AllowedArea(code) || (code in ss[i] && ss[i][code].key != info.key)
  {
    hide AllowedArea, Trim, Run;
    if Trim(area) == "" {
      FullExactlyAt798(ss, rs, i, area, info, free);
      OnlyAllowedCodes(ss, rs, i);
    }
  }

  /**
    A registration that is accepted stores just what it says, under the code asked for or else a free one, and touches
    no other entry. From then on, until that code is removed, its key can register the code again, and no other key can.
   */
  lemma {:induction false} JoinOwns(ss: seq<Servers>, rs: seq<Request>, i: nat, j: nat, code: Code, area: string,
                                    info: Server, free: Option<Code>)
    requires Run(ss, rs) && i < j < |ss| && rs[i].Join? && Kept(rs, i + 1, j, code)
    requires var o := Register(ss[i], rs[i].area, rs[i].info, rs[i].free); o.Ok? && o.value.1 == code
    requires Trim(area) == code
    ensures ss[i + 1] == ss[i][code := rs[i].info] && AllowedArea(code)
    ensures if Trim(rs[i].area) != "" then code == Trim(rs[i].area) else code !in ss[i]
    ensures code in ss[j] && ss[j][code].key == rs[i].info.key
    ensures if info.key == rs[i].info.key then
              var o := Register(ss[j], area, info, free); o.Ok? && o.value.1 == code && o.value.0 == ss[j][code := info]
            else Register(ss[j], area, info, free) == Err(AreaTaken)
  {
    JoinStores(ss[i], rs[i]);
    assert ss[i + 1] == Next(ss[i], rs[i]);
    hide Run, AllowedArea, Trim, Register, Next;
    KeyStays(ss, rs, i + 1, j, code);
    OwnerKeeps(ss, rs, i + 1, j, code, area, info, free);
  }

  lemma {:induction false} JoinStores(s: Servers, r: Request)
    requires r.Join? && Can(s, r) && Register(s, r.area, r.info, r.free).Ok?
    ensures var code := Register(s, r.area, r.info, r.free).value.1;
            && Next(s, r) == s[code := r.info] && AllowedArea(code)
            && if Trim(r.area) != "" then code == Trim(r.area) else code !in s
  {
    hide Trim;
  }

  /** A signed removal takes out just that area, which anybody can then register; any other changes nothing. */
  lemma {:induction false} LeaveFrees(ss: seq<Servers>, rs: seq<Request>, i: nat, c: Code, area: string, info: Server,
                                      free: Option<Code>)
    requires Run(ss, rs) && i < |rs| && rs[i].Leave?
    ensures c in ss[i + 1] <==> c in ss[i] && !(rs[i].signed && c == rs[i].code)
    ensures c in ss[i + 1] ==> ss[i + 1][c] == ss[i][c]
    ensures rs[i].signed && rs[i].code in ss[i] && Trim(area) == rs[i].code ==>
              Register(ss[i + 1], area, info, free) == Ok((ss[i + 1][rs[i].code := info], rs[i].code))
  {
    if rs[i].code in ss[i] {
      AllAllowedAt(ss, rs, i);
      AllowedLength(rs[i].code);
    }
    assert ss[i + 1] == Next(ss[i], rs[i]);
    hide Run, AllowedArea, Trim;
  }

  lemma {:induction false} AllowedLength(c: Code)
    ensures AllowedArea(c) ==> |c| == 3
  {}

  // ---- The store ----

  class RegistryStore {
    var servers: Servers

    constructor ()
      ensures servers == map[]
    {
      servers := map[];
    }

    method RegisterServer(area: string, info: Server, draws: seq<int>)
      returns (r: Result<Code, Error>, ghost free: Option<Code>)
      requires |draws| == 500 && forall i | 0 <= i < |draws| :: 200 <= draws[i] < 800
      modifies this
      ensures Trim(area) == "" ==> Picks(old(servers), free)
      ensures match Register(old(servers), area, info, free)
              case Ok((s, code)) => servers == s && r == Result.Ok(code)
              case Err(e) => servers == old(servers) && r == Err(e)
      ensures r.Err? ==> servers == old(servers)
    {
      hide AllowedArea, Trim;
      free := None;
      var code := Trim(area);
      if code == "" {
        var picked := PickFree(servers.Keys, draws);
        free := picked;
        if picked.None? {
          return Err(NoFreeAreas), free;
        }
        code := picked.value;
      } else if !AllowedArea(code) {
        return Err(AreaInvalid), free;
      } else if code in servers {
        if servers[code].key == info.key {
          servers := servers[code := servers[code].(name := info.name, address := info.address)];
          return Result.Ok(code), free;
        }
        return Err(AreaTaken), free;
      }
      servers := servers[code := info];
      return Result.Ok(code), free;
    }

    method DeregisterServer(area: Code, signed: bool) returns (r: Option<Error>)
      modifies this
      ensures servers == Next(old(servers), Leave(area, signed))
      ensures r == if Deregister(old(servers), area, signed).Ok? then None
        else Some(Deregister(old(servers), area, signed).error)
      ensures r.Some? ==> servers == old(servers)
    {
      if area !in servers {
        return Some(ServerNotFound);
      }
      if !signed {
        return Some(BadSignature);
      }
      servers := servers - {area};
      return None;
    }
  }
}
