/** The packet-filter string `fec,cols:C,rows:R,layout:L,arq:A`, on a 64-bit host. */
module Fec {
  import opened SrtTypes
  import opened Text

  const USIZE_MAX := 0xFFFF_FFFF_FFFF_FFFF
  const I64_MAX := 0x7FFF_FFFF_FFFF_FFFF

  datatype FecLayout = Even | Staircase
  datatype ArqMode = Always | OnReq | Never
  datatype FecConfig = FecConfig(cols: nat, rows: nat, layout: FecLayout, arq: ArqMode)

  datatype FecError =
    | EmptyConfig | NotFec | NotKeyValue
    | InvalidCols | ZeroCols | InvalidRows | ZeroRows | InvalidLayout | InvalidArq

  datatype Result<+T> = Ok(value: T) | Err(error: FecError)

  const DEFAULT := FecConfig(10, 1, Staircase, OnReq)

  // ── Decimal numbers ──

  predicate IsDigit(c: char) { '0' <= c <= '9' }

  function Digit(n: nat): char
    requires n < 10
  {
    '0' + n as char
  }

  function Decimal(n: nat): (s: string)
    ensures s != "" && forall c | c in s :: IsDigit(c)
  {
    if n < 10 then [Digit(n)] else Decimal(n / 10) + [Digit(n % 10)]
  }

  function DigitsValue(s: string): nat
    requires forall c | c in s :: IsDigit(c)
  {
    if s == "" then 0
    else
      var n := |s| - 1;
      assert IsDigit(s[n]);
      10 * DigitsValue(s[..n]) + (s[n] - '0') as nat
  }

  /** Digits only, at least one. */
  function ParseDigits(s: string): Option<nat> {
    if s != "" && forall c | c in s :: IsDigit(c) then Some(DigitsValue(s)) else None
  }

  /** A usize: an optional plus sign and digits, in range. */
  function ParseUsize(s: string): Option<nat> {
    match ParseDigits(if s != "" && s[0] == '+' then s[1..] else s)
    case Some(n) => if n <= USIZE_MAX then Some(n) else None
    case None => None
  }

  /** An i64: an optional sign and digits, in range. */
  function ParseI64(s: string): Option<int> {
    if s != "" && s[0] == '-' then
      match ParseDigits(s[1..])
      case Some(n) => if n <= I64_MAX + 1 then Some(-(n as int)) else None
      case None => None
    else
      match ParseDigits(if s != "" && s[0] == '+' then s[1..] else s)
      case Some(n) => if n <= I64_MAX then Some(n) else None
      case None => None
  }

  // ── Parsing ──

  datatype Key = Cols | Rows | Layout | Arq | Unknown

  function KeyOf(key: string): Key {
    if key == "cols" then Cols
    else if key == "rows" then Rows
    else if key == "layout" then Layout
    else if key == "arq" then Arq
    else Unknown
  }

  function LayoutOf(value: string): Option<FecLayout> {
    if value == "even" then Some(Even) else if value == "staircase" then Some(Staircase) else None
  }

  function ArqOf(value: string): Option<ArqMode> {
    if value == "always" then Some(Always)
    else if value == "onreq" then Some(OnReq)
    else if value == "never" then Some(Never)
    else None
  }

  /** One parameter; an unknown key is ignored. Zero is refused, whatever keys repeat. */
  function Set(config: FecConfig, key: Key, value: string): Result<FecConfig> {
    match key
    case Cols =>
      (match ParseUsize(value)
       case None => Err(InvalidCols)
       case Some(n) => if n == 0 then Err(ZeroCols) else Ok(config.(cols := n)))
    case Rows =>
      (match ParseI64(value)
       case None => Err(InvalidRows)
       case Some(n) =>
         var rows := if n < 0 then -n else n;
         if rows == 0 then Err(ZeroRows) else Ok(config.(rows := rows)))
    case Layout =>
      (match LayoutOf(value)
       case None => Err(InvalidLayout)
       case Some(l) => Ok(config.(layout := l)))
    case Arq =>
      (match ArqOf(value)
       case None => Err(InvalidArq)
       case Some(a) => Ok(config.(arq := a)))
    case Unknown => Ok(config)
  }

  function SetParam(config: FecConfig, raw: string): Result<FecConfig> {
    var param := Trim(raw);
    if param == "" then Ok(config)
    else
      match SplitOnce(param, ':')
      case None => Err(NotKeyValue)
      case Some((key, value)) => Set(config, KeyOf(Trim(key)), Trim(value))
  }

  function SetParams(config: FecConfig, params: seq<string>): Result<FecConfig>
    decreases |params|
  {
    if params == [] then Ok(config)
    else
      match SetParam(config, params[0])
      case Err(e) => Err(e)
      case Ok(next) => SetParams(next, params[1..])
  }

  function Parsed(s: string): Result<FecConfig> {
    var trimmed := Trim(s);
    if trimmed == "" then Err(EmptyConfig)
    else
      match SplitOnce(trimmed, ',')
      case None => if Trim(trimmed) != "fec" then Err(NotFec) else Ok(DEFAULT)
      case Some((head, tail)) =>
        if Trim(head) != "fec" then Err(NotFec) else SetParams(DEFAULT, Split(tail, ','))
  }

  method Parse(s: string) returns (r: Result<FecConfig>)
    ensures r == Parsed(s)
  {
    hide Set;
    var trimmed := Trim(s);
    if trimmed == "" {
      return Err(EmptyConfig);
    }
    var parts := SplitOnce(trimmed, ',');
    var head := if parts.None? then trimmed else parts.value.0;
    if Trim(head) != "fec" {
      return Err(NotFec);
    }
    var config := DEFAULT;
    if parts.None? {
      return Ok(config);
    }
    var params := Split(parts.value.1, ',');
    for i := 0 to |params|
      invariant SetParams(config, params[i..]) == Parsed(s)
    {
      var param := Trim(params[i]);
      if param == "" {
        continue;
      }
      var kv := SplitOnce(param, ':');
      if kv.None? {
        return Err(NotKeyValue);
      }
      var next := Set(config, KeyOf(Trim(kv.value.0)), Trim(kv.value.1));
      if next.Err? {
        return next;
      }
      config := next.value;
    }
    return Ok(config);
  }

  // ── Printing ──

  function LayoutName(l: FecLayout): string {
    match l case Even => "even" case Staircase => "staircase"
  }

  function ArqName(a: ArqMode): string {
    match a case Always => "always" case OnReq => "onreq" case Never => "never"
  }

  function Printed(c: FecConfig): string {
    "fec,cols:" + Decimal(c.cols) + ",rows:" + Decimal(c.rows) +
    ",layout:" + LayoutName(c.layout) + ",arq:" + ArqName(c.arq)
  }

  // ── Round trips ──

  lemma {:induction false} DecimalValue(n: nat)
    ensures DigitsValue(Decimal(n)) == n
  {
    if n < 10 {
      assert DigitsValue([]) == 0;
      assert Decimal(n)[..0] == [];
    } else {
      DecimalValue(n / 10);
      assert Decimal(n)[..|Decimal(n)| - 1] == Decimal(n / 10);
    }
  }

  lemma DecimalParses(n: nat)
    ensures ParseUsize(Decimal(n)) == if n <= USIZE_MAX then Some(n) else None
    ensures ParseI64(Decimal(n)) == if n <= I64_MAX then Some(n) else None
    ensures Trim(Decimal(n)) == Decimal(n) && ',' !in Decimal(n) && ':' !in Decimal(n)
  {
    DecimalValue(n);
    var s := Decimal(n);
    assert IsDigit(s[0]) && IsDigit(s[|s| - 1]);
    hide Decimal, DigitsValue;
  }

  /** A plain key and value, neither holding a separator nor framed by blanks. */
  ghost predicate Plain(s: string) {
    s != "" && !IsWhite(s[0]) && !IsWhite(s[|s| - 1]) && ',' !in s && ':' !in s
  }

  lemma PlainParam(config: FecConfig, key: string, value: string)
    requires Plain(key) && Plain(value)
    ensures ',' !in key + [':'] + value
    ensures SetParam(config, key + [':'] + value) == Set(config, KeyOf(key), value)
  {
    hide Set, KeyOf;
    var p := key + [':'] + value;
    SplitOnceAt(key, ':', value);
    assert p[0] == key[0] && p[|p| - 1] == value[|value| - 1];
  }

  lemma DecimalIsPlain(n: nat)
    ensures Plain(Decimal(n))
  {
    var s := Decimal(n);
    assert IsDigit(s[0]) && IsDigit(s[|s| - 1]);
  }

  lemma NamesArePlain(l: FecLayout, a: ArqMode)
    ensures Plain(LayoutName(l)) && LayoutOf(LayoutName(l)) == Some(l)
    ensures Plain(ArqName(a)) && ArqOf(ArqName(a)) == Some(a)
  {
  }

  lemma KeysArePlain()
    ensures Plain("cols") && Plain("rows") && Plain("layout") && Plain("arq")
    ensures KeyOf("cols") == Cols && KeyOf("rows") == Rows && KeyOf("layout") == Layout && KeyOf("arq") == Arq
  {
  }

  ghost function Param(key: string, value: string): string { key + [':'] + value }

  ghost function Params(c: FecConfig): seq<string> {
    [Param("cols", Decimal(c.cols)), Param("rows", Decimal(c.rows)),
     Param("layout", LayoutName(c.layout)), Param("arq", ArqName(c.arq))]
  }

  lemma JoinFour(a: string, b: string, c: string, d: string)
    ensures Join([a, b, c, d], ',') == a + [','] + (b + [','] + (c + [','] + d))
  {
    assert [c, d][1..] == [d];
    assert Join([c, d], ',') == c + [','] + d;
    assert [b, c, d][1..] == [c, d];
    assert Join([b, c, d], ',') == b + [','] + (c + [','] + d);
    assert [a, b, c, d][1..] == [b, c, d];
  }

  lemma PrintedIsJoined(c: FecConfig)
    ensures Printed(c) == "fec" + [','] + Join(Params(c), ',')
  {
    hide Decimal, LayoutName, ArqName, Join;
    JoinFour(Params(c)[0], Params(c)[1], Params(c)[2], Params(c)[3]);
    assert "fec,cols:" == "fec" + [','] + "cols" + [':'];
    assert ",rows:" == [','] + "rows" + [':'];
    assert ",layout:" == [','] + "layout" + [':'];
    assert ",arq:" == [','] + "arq" + [':'];
  }

  lemma ParamsAreSet(c: FecConfig, config: FecConfig)
    ensures forall p | p in Params(c) :: ',' !in p
    ensures SetParam(config, Params(c)[0]) == Set(config, Cols, Decimal(c.cols))
    ensures SetParam(config, Params(c)[1]) == Set(config, Rows, Decimal(c.rows))
    ensures SetParam(config, Params(c)[2]) == Set(config, Layout, LayoutName(c.layout))
    ensures SetParam(config, Params(c)[3]) == Set(config, Arq, ArqName(c.arq))
  {
    KeysArePlain();
    DecimalIsPlain(c.cols);
    DecimalIsPlain(c.rows);
    NamesArePlain(c.layout, c.arq);
    hide Set, SetParam, Decimal, LayoutName, ArqName, Plain, KeyOf;
    PlainParam(config, "cols", Decimal(c.cols));
    PlainParam(config, "rows", Decimal(c.rows));
    PlainParam(config, "layout", LayoutName(c.layout));
    PlainParam(config, "arq", ArqName(c.arq));
  }

  /** After `fec,` come the parameters. */
  lemma FecThenParams(tail: string)
    requires tail != "" && !IsWhite(tail[|tail| - 1])
    ensures Parsed("fec" + [','] + tail) == SetParams(DEFAULT, Split(tail, ','))
  {
    hide SetParams, Split;
    var s := "fec" + [','] + tail;
    SplitOnceAt("fec", ',', tail);
    assert s[0] == 'f' && s[|s| - 1] == tail[|tail| - 1];
    assert Trim(s) == s;
    assert Trim("fec") == "fec";
  }

  /** A printed config reads back as its four parameters, set in turn. */
  lemma PrintedIsParams(c: FecConfig)
    ensures Parsed(Printed(c)) == SetParams(DEFAULT, Params(c))
  {
    hide SetParams, SetParam, Set, Join, Split, Printed, Parsed, Param, Decimal, Trim, IsWhite, LayoutName, ArqName;
    var tail := Join(Params(c), ',');
    PrintedIsJoined(c);
    ParamsAreSet(c, DEFAULT);
    SplitJoin(Params(c), ',');
    TailIsTrimmed(c);
    assert |Params(c)| == 4;
    FecThenParams(tail);
  }

  lemma TailIsTrimmed(c: FecConfig)
    ensures var tail := Join(Params(c), ',');
            tail != "" && !IsWhite(tail[|tail| - 1])
  {
    NamesArePlain(c.layout, c.arq);
    JoinFour(Params(c)[0], Params(c)[1], Params(c)[2], Params(c)[3]);
    hide Join, Decimal, LayoutName, ArqName;
    var tail, name := Join(Params(c), ','), ArqName(c.arq);
    assert tail[|tail| - 1] == name[|name| - 1];
  }

  lemma SetFour(config: FecConfig, a: string, b: string, c: string, d: string)
    requires SetParam(config, a).Ok? && SetParam(SetParam(config, a).value, b).Ok?
    requires SetParam(SetParam(SetParam(config, a).value, b).value, c).Ok?
    ensures SetParams(config, [a, b, c, d]) ==
            SetParam(SetParam(SetParam(SetParam(config, a).value, b).value, c).value, d)
  {
    hide SetParam;
    var c1 := SetParam(config, a).value;
    var c2 := SetParam(c1, b).value;
    var c3 := SetParam(c2, c).value;
    assert [d][1..] == [];
    assert SetParams(c3, [d]) == SetParam(c3, d) by {
      if SetParam(c3, d).Ok? { assert SetParams(SetParam(c3, d).value, []) == SetParam(c3, d); }
    }
    assert [c, d][1..] == [d];
    assert SetParams(c2, [c, d]) == SetParams(c3, [d]);
    assert [b, c, d][1..] == [c, d];
    assert SetParams(c1, [b, c, d]) == SetParams(c2, [c, d]);
    assert [a, b, c, d][1..] == [b, c, d];
  }

  /** Setting a number from its decimal form. */
  lemma SetDecimal(config: FecConfig, n: nat)
    requires n <= USIZE_MAX
    ensures Set(config, Cols, Decimal(n)) == if n == 0 then Err(ZeroCols) else Ok(config.(cols := n))
    ensures Set(config, Rows, Decimal(n)) ==
            if n == 0 then Err(ZeroRows) else if n <= I64_MAX then Ok(config.(rows := n)) else Err(InvalidRows)
  {
    DecimalParses(n);
    hide Decimal, ParseUsize, ParseI64;
  }

  /** Printing then parsing gives back exactly the config, for the configs with at least one
      column and row whose rows fit a signed 64-bit number, and for no others of its type. */
  lemma RoundTripExactly(c: FecConfig)
    requires c.cols <= USIZE_MAX && c.rows <= USIZE_MAX
    ensures Parsed(Printed(c)) == Ok(c) <==> 1 <= c.cols && 1 <= c.rows <= I64_MAX
    ensures !(1 <= c.cols && 1 <= c.rows <= I64_MAX) ==> Parsed(Printed(c)).Err?
  {
    hide SetParam, Set, Param, Parsed, Printed, LayoutName, ArqName, Decimal;
    var ps := Params(c);
    var c1 := DEFAULT.(cols := c.cols);
    var c2 := c1.(rows := c.rows);
    var c3 := c2.(layout := c.layout);
    PrintedIsParams(c);
    SetDecimal(DEFAULT, c.cols);
    SetDecimal(c1, c.rows);
    ParamsAreSet(c, DEFAULT);
    ParamsAreSet(c, c1);
    if 1 <= c.cols && 1 <= c.rows <= I64_MAX {
      ParamsAreSet(c, c2);
      ParamsAreSet(c, c3);
      SetNames(c2, c.layout, c.arq);
      SetNames(c3, c.layout, c.arq);
      SetFour(DEFAULT, ps[0], ps[1], ps[2], ps[3]);
    } else if c.cols >= 1 {
      SecondFails(DEFAULT, c1, ps);
    }
  }

  lemma SetNames(config: FecConfig, l: FecLayout, a: ArqMode)
    ensures Set(config, Layout, LayoutName(l)) == Ok(config.(layout := l))
    ensures Set(config, Arq, ArqName(a)) == Ok(config.(arq := a))
  {
    NamesArePlain(l, a);
    hide LayoutName, ArqName, LayoutOf, ArqOf, Plain;
  }

  lemma SecondFails(config: FecConfig, next: FecConfig, ps: seq<string>)
    requires |ps| >= 2 && SetParam(config, ps[0]) == Ok(next)
    ensures SetParam(next, ps[1]).Err? ==> SetParams(config, ps).Err?
  {
    hide SetParam;
  }

  lemma SetKeepsRange(config: FecConfig, param: string)
    requires InRange(config)
    ensures SetParam(config, param).Ok? ==> InRange(SetParam(config, param).value)
  {
    hide ParseDigits, KeyOf, LayoutOf, ArqOf, Trim, SplitOnce;
  }

  /** Whatever keys repeat, are unknown or come in any order, a config that parses has a column
      and a row, and fits its type. */
  lemma {:induction false} SetParamsInRange(config: FecConfig, params: seq<string>)
    requires InRange(config)
    ensures SetParams(config, params).Ok? ==> InRange(SetParams(config, params).value)
    decreases |params|
  {
    hide SetParam, InRange;
    if params != [] && SetParam(config, params[0]).Ok? {
      SetKeepsRange(config, params[0]);
      SetParamsInRange(SetParam(config, params[0]).value, params[1..]);
    }
  }

  ghost predicate InRange(c: FecConfig) { 1 <= c.cols <= USIZE_MAX && 1 <= c.rows <= I64_MAX + 1 }

  /** Every string that parses gives a config in range, and printing it is read back as that
      config except for the single row count that only a minus sign can write. */
  lemma ParsedIsInRange(s: string)
    requires Parsed(s).Ok?
    ensures InRange(Parsed(s).value)
    ensures Parsed(Printed(Parsed(s).value)) == Parsed(s) <==> Parsed(s).value.rows != I64_MAX + 1
  {
    if SplitOnce(Trim(s), ',').Some? {
      SetParamsInRange(DEFAULT, Split(SplitOnce(Trim(s), ',').value.1, ','));
    }
    hide SetParams;
    RoundTripExactly(Parsed(s).value);
    hide Printed;
  }

  /** That row count is reachable: this input parses, and its printed form does not. */
  lemma MinimumRowsDoNotReturn()
    ensures var s := "fec" + [','] + Param("rows", "-" + Decimal(I64_MAX + 1));
            && Parsed(s) == Ok(DEFAULT.(rows := I64_MAX + 1))
            && Parsed(Printed(Parsed(s).value)).Err?
  {
    var d := Decimal(I64_MAX + 1);
    var value := "-" + d;
    var param := Param("rows", value);
    var config := DEFAULT.(rows := I64_MAX + 1);
    hide Decimal, Set, SetParam, SetParams, Split, Parsed, Printed, KeyOf;
    KeysArePlain();
    SetMinimumRows(DEFAULT);
    PlainParam(DEFAULT, "rows", value);
    assert param[|param| - 1] == value[|value| - 1];
    FecThenParams(param);
    OneParam(DEFAULT, param);
    RoundTripExactly(config);
  }

  lemma OneParam(config: FecConfig, param: string)
    requires ',' !in param
    ensures SetParams(config, Split(param, ',')) == SetParam(config, param)
  {
    hide SetParam;
    assert [param][1..] == [];
    if SetParam(config, param).Ok? { assert SetParams(SetParam(config, param).value, []) == SetParam(config, param); }
  }

  lemma SetMinimumRows(config: FecConfig)
    ensures var value := "-" + Decimal(I64_MAX + 1);
            Plain(value) && Set(config, Rows, value) == Ok(config.(rows := I64_MAX + 1))
  {
    var d := Decimal(I64_MAX + 1);
    var value := "-" + d;
    DecimalValue(I64_MAX + 1);
    DecimalIsPlain(I64_MAX + 1);
    assert value[1..] == d && value[|value| - 1] == d[|d| - 1];
    hide Decimal, DigitsValue;
  }
}
