/** What a packet-filter string says: which parameters it gives, the last one of each key counting,
    and which is the first it is refused for. */
module FecParams {
  import opened SrtTypes
  import opened Text
  import opened Fec

  /** The parameter, trimmed, is a key and a value about its first colon, both trimmed. */
  ghost predicate Gives(p: string, key: string, value: string) {
    var t := Trim(p);
    exists i | 0 <= i < |t| :: t[i] == ':' && ':' !in t[..i] && Trim(t[..i]) == key && Trim(t[i+1..]) == value
  }

  /** The last parameter that gives `key`, if any does, gives it `value`. */
  ghost predicate LastGives(ps: seq<string>, key: string, value: Option<string>) {
    match value
    case None => forall p, v | p in ps :: !Gives(p, key, v)
    case Some(x) =>
      exists i | 0 <= i < |ps| :: Gives(ps[i], key, x) && forall j, v | i < j < |ps| :: !Gives(ps[j], key, v)
  }

  ghost predicate ColsAre(ps: seq<string>, default: nat, n: nat) {
    || (LastGives(ps, "cols", None) && n == default)
    || exists v :: LastGives(ps, "cols", Some(v)) && ParseUsize(v) == Some(n)
  }

  /** Rows may be written with a minus sign, which is dropped. */
  ghost predicate CountsRows(value: string, n: nat) {
    ParseI64(value) == Some(n as int) || ParseI64(value) == Some(-(n as int))
  }

  ghost predicate RowsAre(ps: seq<string>, default: nat, n: nat) {
    || (LastGives(ps, "rows", None) && n == default)
    || exists v :: LastGives(ps, "rows", Some(v)) && CountsRows(v, n)
  }

  ghost function LayoutText(l: FecLayout): string {
    match l case Even => "even" case Staircase => "staircase"
  }

  ghost function ArqText(a: ArqMode): string {
    match a case Always => "always" case OnReq => "onreq" case Never => "never"
  }

  ghost predicate LayoutIs(ps: seq<string>, default: FecLayout, l: FecLayout) {
    || (LastGives(ps, "layout", None) && l == default)
    || LastGives(ps, "layout", Some(LayoutText(l)))
  }

  ghost predicate ArqIs(ps: seq<string>, default: ArqMode, a: ArqMode) {
    || (LastGives(ps, "arq", None) && a == default)
    || LastGives(ps, "arq", Some(ArqText(a)))
  }

  ghost predicate IsRead(ps: seq<string>, default: FecConfig, c: FecConfig) {
    && ColsAre(ps, default.cols, c.cols) && RowsAre(ps, default.rows, c.rows)
    && LayoutIs(ps, default.layout, c.layout) && ArqIs(ps, default.arq, c.arq)
  }

  /** The value is refused for its key; with an unknown key none is. */
  ghost predicate RefusedValue(key: string, value: string, e: FecError) {
    match e
    case InvalidCols => key == "cols" && ParseUsize(value).None?
    case ZeroCols => key == "cols" && ParseUsize(value) == Some(0)
    case InvalidRows => key == "rows" && ParseI64(value).None?
    case ZeroRows => key == "rows" && ParseI64(value) == Some(0)
    case InvalidLayout => key == "layout" && value !in {"even", "staircase"}
    case InvalidArq => key == "arq" && value !in {"always", "onreq", "never"}
    case _ => false
  }

  /** The parameter is refused: it has no colon, and is not blank, or for its value. */
  ghost predicate Refused(p: string, e: FecError) {
    || (e == NotKeyValue && Trim(p) != "" && ':' !in Trim(p))
    || exists key, value :: Gives(p, key, value) && RefusedValue(key, value, e)
  }

  /** `c` is `was` with `key` set to `value`. */
  ghost predicate SetTo(key: string, value: string, was: FecConfig, c: FecConfig) {
    && (if key == "cols" then ParseUsize(value) == Some(c.cols) else c.cols == was.cols)
    && (if key == "rows" then CountsRows(value, c.rows) else c.rows == was.rows)
    && (if key == "layout" then value == LayoutText(c.layout)
        else c.layout == was.layout)
    && (if key == "arq" then value == ArqText(c.arq)
        else c.arq == was.arq)
  }

  lemma SetsOne(config: FecConfig, key: string, value: string)
    ensures var r := Set(config, KeyOf(key), value);
            && (forall e :: r == Err(e) <==> RefusedValue(key, value, e))
            && (r.Ok? ==> SetTo(key, value, config, r.value))
  {
    hide ParseUsize, ParseI64;
  }

  lemma GivesSplit(p: string)
    ensures match SplitOnce(Trim(p), ':')
            case None => forall k, v :: !Gives(p, k, v)
            case Some((key, value)) => forall k, v :: Gives(p, k, v) <==> k == Trim(key) && v == Trim(value)
  {
    var t := Trim(p);
    forall i | 0 <= i < |t| && t[i] == ':' && ':' !in t[..i] ensures SplitOnce(t, ':') == Some((t[..i], t[i+1..])) {
      assert t == t[..i] + [':'] + t[i+1..];
      SplitOnceAt(t[..i], ':', t[i+1..]);
    }
    if SplitOnce(t, ':').Some? {
      var (key, value) := SplitOnce(t, ':').value;
      assert t[|key|] == ':' && t[..|key|] == key && t[|key|+1..] == value;
    }
    hide Trim, SplitOnce;
  }

  /** One parameter is refused, or sets what it gives and nothing else. */
  lemma SetsWhatIsGiven(config: FecConfig, p: string)
    ensures var r := SetParam(config, p);
            && (forall e :: r == Err(e) <==> Refused(p, e))
            && (r.Ok? ==> forall key, value | Gives(p, key, value) :: SetTo(key, value, config, r.value))
            && (r.Ok? && (forall key, value :: !Gives(p, key, value)) ==> r.value == config)
  {
    GivesSplit(p);
    if SplitOnce(Trim(p), ':').Some? {
      var (key, value) := SplitOnce(Trim(p), ':').value;
      assert Gives(p, Trim(key), Trim(value));
      SetsOne(config, Trim(key), Trim(value));
    }
    hide Gives, Trim, SplitOnce, RefusedValue, SetTo, Set, KeyOf;
  }

  lemma LastIsLater(ps: seq<string>, key: string)
    requires ps != []
    ensures forall v :: LastGives(ps[1..], key, Some(v)) ==> LastGives(ps, key, Some(v))
    ensures LastGives(ps[1..], key, None) ==>
              && (forall v | Gives(ps[0], key, v) :: LastGives(ps, key, Some(v)))
              && ((forall v :: !Gives(ps[0], key, v)) ==> LastGives(ps, key, None))
  {
    hide Gives;
    forall v | LastGives(ps[1..], key, Some(v)) ensures LastGives(ps, key, Some(v)) {
      var i :| 0 <= i < |ps[1..]| && Gives(ps[1..][i], key, v)
              && forall j, x | i < j < |ps[1..]| :: !Gives(ps[1..][j], key, x);
      assert ps[i + 1] == ps[1..][i];
      assert forall j | i + 1 < j < |ps| :: ps[j] == ps[1..][j - 1];
    }
    assert forall j | 0 < j < |ps| :: ps[j] in ps[1..] by {
      assert forall j | 0 < j < |ps| :: ps[j] == ps[1..][j - 1];
    }
    forall p | p in ps ensures p == ps[0] || p in ps[1..] {
      var j :| 0 <= j < |ps| && ps[j] == p;
    }
  }

  ghost predicate FirstRefused(ps: seq<string>, e: FecError) {
    exists i | 0 <= i < |ps| :: Refused(ps[i], e) && forall j, other | 0 <= j < i :: !Refused(ps[j], other)
  }

  /** `next` is `config` with what `p` gives. */
  ghost predicate SetBy(p: string, config: FecConfig, next: FecConfig) {
    && (forall key, value | Gives(p, key, value) :: SetTo(key, value, config, next))
    && ((forall key, value :: !Gives(p, key, value)) ==> next == config)
  }

  lemma ColsFollow(ps: seq<string>, config: FecConfig, next: FecConfig, n: nat)
    requires ps != [] && SetBy(ps[0], config, next) && ColsAre(ps[1..], next.cols, n)
    ensures ColsAre(ps, config.cols, n)
  {
    LastIsLater(ps, "cols");
    hide Gives, LastGives, ParseUsize, CountsRows, LayoutText, ArqText;
  }

  lemma RowsFollow(ps: seq<string>, config: FecConfig, next: FecConfig, n: nat)
    requires ps != [] && SetBy(ps[0], config, next) && RowsAre(ps[1..], next.rows, n)
    ensures RowsAre(ps, config.rows, n)
  {
    LastIsLater(ps, "rows");
    hide Gives, LastGives, ParseUsize, CountsRows, LayoutText, ArqText;
  }

  lemma LayoutFollows(ps: seq<string>, config: FecConfig, next: FecConfig, l: FecLayout)
    requires ps != [] && SetBy(ps[0], config, next) && LayoutIs(ps[1..], next.layout, l)
    ensures LayoutIs(ps, config.layout, l)
  {
    LastIsLater(ps, "layout");
    hide Gives, LastGives, ParseUsize, CountsRows, LayoutText, ArqText;
  }

  lemma ArqFollows(ps: seq<string>, config: FecConfig, next: FecConfig, a: ArqMode)
    requires ps != [] && SetBy(ps[0], config, next) && ArqIs(ps[1..], next.arq, a)
    ensures ArqIs(ps, config.arq, a)
  {
    LastIsLater(ps, "arq");
    hide Gives, LastGives, ParseUsize, CountsRows, LayoutText, ArqText;
  }

  lemma {:induction false} SetsAll(config: FecConfig, ps: seq<string>)
    ensures var r := SetParams(config, ps);
            && (r.Ok? ==> IsRead(ps, config, r.value) && forall p, e | p in ps :: !Refused(p, e))
            && (r.Err? ==> FirstRefused(ps, r.error))
    decreases |ps|
  {
    if ps != [] {
      var r := SetParam(config, ps[0]);
      SetsWhatIsGiven(config, ps[0]);
      if r.Err? {
        assert Refused(ps[0], r.error);
      } else {
        SetsAll(r.value, ps[1..]);
        if SetParams(r.value, ps[1..]).Ok? {
          var c := SetParams(r.value, ps[1..]).value;
          ColsFollow(ps, config, r.value, c.cols);
          RowsFollow(ps, config, r.value, c.rows);
          LayoutFollows(ps, config, r.value, c.layout);
          ArqFollows(ps, config, r.value, c.arq);
          assert forall p | p in ps :: p == ps[0] || p in ps[1..];
        } else {
          RefusedLater(ps, SetParams(r.value, ps[1..]).error);
        }
        hide Refused, SetBy, ColsAre, RowsAre, LayoutIs, ArqIs, SetParam, FirstRefused;
      }
    }
  }

  lemma RefusedLater(ps: seq<string>, e: FecError)
    requires ps != [] && (forall other :: !Refused(ps[0], other)) && FirstRefused(ps[1..], e)
    ensures FirstRefused(ps, e)
  {
    hide Refused;
    var i :| 0 <= i < |ps[1..]| && Refused(ps[1..][i], e)
            && forall j, other | 0 <= j < i :: !Refused(ps[1..][j], other);
    assert ps[i + 1] == ps[1..][i] && forall j | 0 < j <= i :: ps[j] == ps[1..][j - 1];
  }

  /** A packet-filter string is refused when blank, when it does not start with `fec`, and for the
      first parameter that is refused. Otherwise each setting is the last one given, and one not
      given is 10 columns, 1 row, staircase, on request. */
  lemma ParsesWhatIsGiven(s: string)
    ensures var parts := Split(Trim(s), ',');
            if Trim(s) == "" then Parsed(s) == Err(EmptyConfig)
            else if Trim(parts[0]) != "fec" then Parsed(s) == Err(NotFec)
            else match Parsed(s)
                 case Err(e) => FirstRefused(parts[1..], e)
                 case Ok(c) =>
                   && IsRead(parts[1..], FecConfig(10, 1, Staircase, OnReq), c)
                   && forall p, e | p in parts[1..] :: !Refused(p, e)
  {
    var t := Trim(s);
    match SplitOnce(t, ',')
    case None =>
      assert Split(t, ',')[1..] == [];
      SetsAll(DEFAULT, []);
      hide FirstRefused, IsRead, Refused, Trim;
    case Some((head, tail)) =>
      assert Split(t, ',')[1..] == Split(tail, ',');
      SetsAll(DEFAULT, Split(tail, ','));
      hide FirstRefused, IsRead, Refused, Trim, Split, SetParams;
  }

  /** Numbers are written in base ten. */
  lemma DecimalIsPositional(n: nat, d: nat)
    requires d < 10
    ensures Decimal(d) == ["0123456789"[d]]
    ensures n > 0 ==> Decimal(10 * n + d) == Decimal(n) + Decimal(d)
  {
    assert "0123456789"[d] == '0' + d as char;
    assert n > 0 ==> (10 * n + d) / 10 == n && (10 * n + d) % 10 == d;
  }

  /** Numbers may carry a sign: plus, or for rows minus. */
  lemma SignsParse(n: nat)
    ensures ParseUsize("+" + Decimal(n)) == if n <= USIZE_MAX then Some(n) else None
    ensures ParseUsize("-" + Decimal(n)) == None && ParseUsize("") == None && ParseI64("") == None
    ensures ParseI64("+" + Decimal(n)) == if n <= I64_MAX then Some(n) else None
    ensures ParseI64("-" + Decimal(n)) == if n <= I64_MAX + 1 then Some(-(n as int)) else None
  {
    var d := Decimal(n);
    DecimalValue(n);
    assert ("+" + d)[1..] == d && ("-" + d)[1..] == d && ("-" + d)[0] == '-' && !IsDigit('-');
    hide Decimal, DigitsValue;
  }

  /** A config prints as `fec` and its four settings, in this order, between commas. */
  lemma PrintsInOrder(c: FecConfig)
    ensures Split(Printed(c), ',') ==
            ["fec", "cols:" + Decimal(c.cols), "rows:" + Decimal(c.rows),
             "layout:" + LayoutText(c.layout), "arq:" + ArqText(c.arq)]
  {
    var parts := ["fec"] + Params(c);
    PrintedIsJoined(c);
    ParamsAreSet(c, DEFAULT);
    hide Decimal, Printed, Split, Join, SetParam, Set;
    assert Params(c)[0] == "cols:" + Decimal(c.cols) && Params(c)[1] == "rows:" + Decimal(c.rows);
    assert Params(c)[2] == "layout:" + LayoutName(c.layout) && Params(c)[3] == "arq:" + ArqName(c.arq);
    JoinMore("fec", Params(c));
    SplitJoin(parts, ',');
  }

  lemma JoinMore(head: string, rest: seq<string>)
    requires rest != []
    ensures Join([head] + rest, ',') == head + [','] + Join(rest, ',')
  {
    assert ([head] + rest)[1..] == rest;
  }
}
