/** The Stream ID of SRT Access Control: `#!::` and a flat list of key=value pairs
    (draft-sharabayko-srt-01, Appendix B.1). */
module StreamId {
  import opened SrtTypes
  import opened Text

  datatype StreamIdInfo = StreamIdInfo(
    resource: Option<string>,
    mode: Option<string>,
    sessionId: Option<string>,
    contentType: Option<string>,
    userName: Option<string>,
    hostName: Option<string>,
    extra: seq<(string, string)>,
    raw: string)

  const PREFIX := "#!::"

  function Blank(raw: string): StreamIdInfo {
    StreamIdInfo(None, None, None, None, None, None, [], raw)
  }

  function Assign(info: StreamIdInfo, key: string, value: string): StreamIdInfo {
    if key == "r" then info.(resource := Some(value))
    else if key == "m" then info.(mode := Some(value))
    else if key == "s" then info.(sessionId := Some(value))
    else if key == "t" then info.(contentType := Some(value))
    else if key == "u" then info.(userName := Some(value))
    else if key == "h" then info.(hostName := Some(value))
    else info.(extra := info.extra + [(key, value)])
  }

  function Absorb(info: StreamIdInfo, piece: string): StreamIdInfo {
    match SplitOnce(Trim(piece), '=')
    case None => info
    case Some((key, value)) => Assign(info, key, value)
  }

  function AbsorbAll(info: StreamIdInfo, pieces: seq<string>): StreamIdInfo {
    if pieces == [] then info
    else Absorb(AbsorbAll(info, pieces[..|pieces| - 1]), pieces[|pieces| - 1])
  }

  function Parsed(s: string): StreamIdInfo {
    if s == "" then Blank(s)
    else if PREFIX <= s then AbsorbAll(Blank(s), Split(s[|PREFIX|..], ','))
    else Blank(s).(resource := Some(s))
  }

  method Parse(streamId: string) returns (info: StreamIdInfo)
    ensures info == Parsed(streamId)
  {
    info := Blank(streamId);
    if streamId == "" {
      return;
    }
    if PREFIX <= streamId {
      var pieces := Split(streamId[|PREFIX|..], ',');
      for i := 0 to |pieces|
        invariant info == AbsorbAll(Blank(streamId), pieces[..i])
      {
        assert pieces[..i+1][..i] == pieces[..i];
        var pair := Trim(pieces[i]);
        if pair == "" {
          continue;
        }
        var kv := SplitOnce(pair, '=');
        if kv.Some? {
          var (key, value) := kv.value;
          match key {
            case "r" => info := info.(resource := Some(value));
            case "m" => info := info.(mode := Some(value));
            case "s" => info := info.(sessionId := Some(value));
            case "t" => info := info.(contentType := Some(value));
            case "u" => info := info.(userName := Some(value));
            case "h" => info := info.(hostName := Some(value));
            case _ => info := info.(extra := info.extra + [(key, value)]);
          }
        }
      }
      assert pieces[..|pieces|] == pieces;
    } else {
      info := info.(resource := Some(streamId));
    }
  }

  function Part(pair: (string, string)): string { pair.0 + "=" + pair.1 }

  function Parts(pairs: seq<(string, string)>): seq<string> {
    seq(|pairs|, i requires 0 <= i < |pairs| => Part(pairs[i]))
  }

  function Field(key: string, value: Option<string>): seq<(string, string)> {
    if value.None? then [] else [(key, value.value)]
  }

  /** The standard fields that are set, in the order they are printed. */
  function Standard(info: StreamIdInfo): seq<(string, string)> {
    Field("r", info.resource) + Field("m", info.mode) + Field("s", info.sessionId) +
    Field("t", info.contentType) + Field("u", info.userName) + Field("h", info.hostName)
  }

  function Printed(info: StreamIdInfo): string {
    var pairs := Standard(info) + info.extra;
    if pairs == [] then "" else PREFIX + Join(Parts(pairs), ',')
  }

  /** Push the field onto `parts` if it is set. */
  method PushField(parts: seq<string>, key: string, value: Option<string>, ghost pairs: seq<(string, string)>)
    returns (r: seq<string>)
    requires parts == Parts(pairs)
    ensures r == Parts(pairs + Field(key, value))
  {
    r := parts;
    if value.Some? {
      r := r + [Part((key, value.value))];
    }
  }

  method ToStreamId(info: StreamIdInfo) returns (s: string)
    ensures s == Printed(info)
  {
    var parts: seq<string> := [];
    ghost var pairs: seq<(string, string)> := [];
    assert parts == Parts(pairs);
    hide Parts, Part, Field;
    parts := PushField(parts, "r", info.resource, pairs);
    pairs := pairs + Field("r", info.resource);
    parts := PushField(parts, "m", info.mode, pairs);
    pairs := pairs + Field("m", info.mode);
    parts := PushField(parts, "s", info.sessionId, pairs);
    pairs := pairs + Field("s", info.sessionId);
    parts := PushField(parts, "t", info.contentType, pairs);
    pairs := pairs + Field("t", info.contentType);
    parts := PushField(parts, "u", info.userName, pairs);
    pairs := pairs + Field("u", info.userName);
    parts := PushField(parts, "h", info.hostName, pairs);
    pairs := pairs + Field("h", info.hostName);
    assert pairs == Standard(info);
    for i := 0 to |info.extra|
      invariant parts == Parts(Standard(info) + info.extra[..i])
    {
      PartsPush(Standard(info) + info.extra[..i], info.extra[i]);
      assert Standard(info) + info.extra[..i+1] == Standard(info) + info.extra[..i] + [info.extra[i]];
      parts := parts + [Part(info.extra[i])];
    }
    assert info.extra[..|info.extra|] == info.extra;
    PartsSize(Standard(info) + info.extra);
    if parts == [] {
      s := "";
    } else {
      s := PREFIX + Join(parts, ',');
    }
  }

  lemma PartsPush(pairs: seq<(string, string)>, pair: (string, string))
    ensures Parts(pairs + [pair]) == Parts(pairs) + [Part(pair)]
  {
  }

  lemma PartsSize(pairs: seq<(string, string)>)
    ensures |Parts(pairs)| == |pairs|
  {
  }

  // ── Which infos survive a round trip ──

  ghost predicate GoodValue(v: string) {
    ',' !in v && (v != "" ==> !IsWhite(v[|v| - 1]))
  }

  ghost predicate GoodField(v: Option<string>) { v.Some? ==> GoodValue(v.value) }

  /** A pair that is read back from its part as it is. */
  ghost predicate GoodPair(e: (string, string)) {
    && ',' !in e.0 && '=' !in e.0 && (e.0 != "" ==> !IsWhite(e.0[0]))
    && GoodValue(e.1)
  }

  predicate StandardKey(key: string) {
    key == "r" || key == "m" || key == "s" || key == "t" || key == "u" || key == "h"
  }

  ghost predicate GoodExtra(e: (string, string)) {
    !StandardKey(e.0) && GoodPair(e)
  }

  /** No comma in a key or value, no trailing blank in a value, and extra keys that are not
      standard, hold no `=` and begin with no blank. */
  ghost predicate WellFormed(info: StreamIdInfo) {
    && GoodField(info.resource) && GoodField(info.mode) && GoodField(info.sessionId)
    && GoodField(info.contentType) && GoodField(info.userName) && GoodField(info.hostName)
    && forall e | e in info.extra :: GoodExtra(e)
  }

  ghost predicate Same(a: StreamIdInfo, b: StreamIdInfo) {
    a.(raw := b.raw) == b
  }

  function AssignAll(info: StreamIdInfo, pairs: seq<(string, string)>): StreamIdInfo {
    if pairs == [] then info
    else
      var n := |pairs| - 1;
      Assign(AssignAll(info, pairs[..n]), pairs[n].0, pairs[n].1)
  }

  lemma AbsorbPart(info: StreamIdInfo, pair: (string, string))
    requires GoodPair(pair)
    ensures ',' !in Part(pair)
    ensures Absorb(info, Part(pair)) == Assign(info, pair.0, pair.1)
  {
    hide Assign;
    var p := Part(pair);
    assert p == pair.0 + ['='] + pair.1;
    assert !IsWhite(p[0]) && !IsWhite(p[|p| - 1]);
    SplitOnceAt(pair.0, '=', pair.1);
  }

  /** Reading back the parts of good pairs assigns the pairs. */
  lemma {:induction false} AbsorbParts(info: StreamIdInfo, pairs: seq<(string, string)>)
    requires forall e | e in pairs :: GoodPair(e)
    ensures forall p | p in Parts(pairs) :: ',' !in p
    ensures AbsorbAll(info, Parts(pairs)) == AssignAll(info, pairs)
  {
    hide Assign, Absorb, Part, GoodPair;
    if pairs != [] {
      var n := |pairs| - 1;
      AbsorbParts(info, pairs[..n]);
      AbsorbPart(AssignAll(info, pairs[..n]), pairs[n]);
      assert Parts(pairs)[..n] == Parts(pairs[..n]);
    }
  }

  lemma {:induction false} AssignTwo(info: StreamIdInfo, a: seq<(string, string)>, b: seq<(string, string)>)
    ensures AssignAll(info, a + b) == AssignAll(AssignAll(info, a), b)
  {
    hide Assign;
    if b == [] {
      assert a + b == a;
    } else {
      assert (a + b)[..|a + b| - 1] == a + b[..|b| - 1];
      AssignTwo(info, a, b[..|b| - 1]);
    }
  }

  lemma {:induction false} AssignExtras(info: StreamIdInfo, extra: seq<(string, string)>)
    requires forall e | e in extra :: !StandardKey(e.0)
    ensures AssignAll(info, extra) == info.(extra := info.extra + extra)
  {
    if extra != [] {
      var n := |extra| - 1;
      AssignExtras(info, extra[..n]);
      assert !StandardKey(extra[n].0);
      assert info.extra + extra[..n] + [extra[n]] == info.extra + extra;
    } else {
      assert info.extra + extra == info.extra;
    }
  }

  lemma AssignField(info: StreamIdInfo, done: seq<(string, string)>, key: string, value: Option<string>)
    ensures AssignAll(info, done + Field(key, value)) ==
            if value.None? then AssignAll(info, done) else Assign(AssignAll(info, done), key, value.value)
  {
    hide Assign;
    if value.Some? {
      assert (done + Field(key, value))[..|done|] == done;
    } else {
      assert done + Field(key, value) == done;
    }
  }

  lemma AssignByKey(info: StreamIdInfo, v: string)
    ensures Assign(info, "r", v) == info.(resource := Some(v))
    ensures Assign(info, "m", v) == info.(mode := Some(v))
    ensures Assign(info, "s", v) == info.(sessionId := Some(v))
    ensures Assign(info, "t", v) == info.(contentType := Some(v))
    ensures Assign(info, "u", v) == info.(userName := Some(v))
    ensures Assign(info, "h", v) == info.(hostName := Some(v))
  {
  }

  lemma AssignStandard(info: StreamIdInfo, raw: string)
    ensures AssignAll(Blank(raw), Standard(info)) == info.(raw := raw, extra := [])
  {
    var i0 := Blank(raw);
    assert AssignAll(i0, []) == i0;
    hide AssignAll, Field, Assign;
    var r, m, s := Field("r", info.resource), Field("m", info.mode), Field("s", info.sessionId);
    var t, u, h := Field("t", info.contentType), Field("u", info.userName), Field("h", info.hostName);
    assert [] + r == r;
    var i1 := i0.(resource := info.resource);
    assert AssignAll(i0, r) == i1 by {
      AssignField(i0, [], "r", info.resource);
      if info.resource.Some? { AssignByKey(i0, info.resource.value); }
    }
    var i2 := i1.(mode := info.mode);
    assert AssignAll(i0, r + m) == i2 by {
      AssignField(i0, r, "m", info.mode);
      if info.mode.Some? { AssignByKey(i1, info.mode.value); }
    }
    var i3 := i2.(sessionId := info.sessionId);
    assert AssignAll(i0, r + m + s) == i3 by {
      AssignField(i0, r + m, "s", info.sessionId);
      if info.sessionId.Some? { AssignByKey(i2, info.sessionId.value); }
    }
    var i4 := i3.(contentType := info.contentType);
    assert AssignAll(i0, r + m + s + t) == i4 by {
      AssignField(i0, r + m + s, "t", info.contentType);
      if info.contentType.Some? { AssignByKey(i3, info.contentType.value); }
    }
    var i5 := i4.(userName := info.userName);
    assert AssignAll(i0, r + m + s + t + u) == i5 by {
      AssignField(i0, r + m + s + t, "u", info.userName);
      if info.userName.Some? { AssignByKey(i4, info.userName.value); }
    }
    var i6 := i5.(hostName := info.hostName);
    assert AssignAll(i0, r + m + s + t + u + h) == i6 by {
      AssignField(i0, r + m + s + t + u, "h", info.hostName);
      if info.hostName.Some? { AssignByKey(i5, info.hostName.value); }
    }
  }

  lemma StandardIsGood(info: StreamIdInfo)
    requires WellFormed(info)
    ensures forall e | e in Standard(info) :: GoodPair(e)
  {
    assert !IsWhite('r') && !IsWhite('m') && !IsWhite('s') && !IsWhite('t') && !IsWhite('u') && !IsWhite('h');
    hide GoodValue, IsWhite;
  }

  /** Printing a well-formed info and parsing the result gives back every field. */
  lemma RoundTrip(info: StreamIdInfo)
    requires WellFormed(info)
    ensures Same(Parsed(Printed(info)), info)
  {
    var s, pairs := Printed(info), Standard(info) + info.extra;
    StandardIsGood(info);
    AbsorbParts(Blank(s), pairs);
    PrintedReads(info);
    AssignsBack(info, s);
    hide AbsorbAll, AssignAll, Standard, Printed, Parsed, WellFormed, GoodPair, Parts;
  }

  /** The printed text is read piece by piece as its parts. */
  lemma PrintedReads(info: StreamIdInfo)
    requires forall p | p in Parts(Standard(info) + info.extra) :: ',' !in p
    ensures var s := Printed(info);
            Parsed(s) == if s == "" then Blank(s) else AbsorbAll(Blank(s), Parts(Standard(info) + info.extra))
    ensures Printed(info) == "" <==> Standard(info) + info.extra == []
  {
    var s, pairs := Printed(info), Standard(info) + info.extra;
    PartsSize(pairs);
    hide Parts, AbsorbAll, Standard, Split, Join;
    if pairs != [] {
      SplitJoin(Parts(pairs), ',');
      assert s[|PREFIX|..] == Join(Parts(pairs), ',');
    }
  }

  /** Assigning every pair that is printed gives the info. */
  lemma AssignsBack(info: StreamIdInfo, raw: string)
    requires forall e | e in info.extra :: !StandardKey(e.0)
    ensures AssignAll(Blank(raw), Standard(info) + info.extra) == info.(raw := raw)
  {
    AssignTwo(Blank(raw), Standard(info), info.extra);
    AssignStandard(info, raw);
    AssignExtras(info.(raw := raw, extra := []), info.extra);
    assert [] + info.extra == info.extra;
    hide AssignAll, Standard;
  }

  lemma AbsorbKeepsWellFormed(info: StreamIdInfo, piece: string)
    requires WellFormed(info) && ',' !in piece
    ensures WellFormed(Absorb(info, piece))
  {
    var p := Trim(piece);
    if SplitOnce(p, '=').Some? {
      var (key, value) := SplitOnce(p, '=').value;
      assert p == key + ['='] + value;
      assert value != "" ==> value[|value| - 1] == p[|p| - 1];
      assert key != "" ==> key[0] == p[0];
      assert forall c | c in key :: c in p;
      assert forall c | c in value :: c in p;
      AssignKeepsWellFormed(info, key, value);
    }
    hide WellFormed, Assign;
  }

  lemma AssignKeepsWellFormed(info: StreamIdInfo, key: string, value: string)
    requires WellFormed(info) && GoodValue(value)
    requires ',' !in key && '=' !in key && (key != "" ==> !IsWhite(key[0]))
    ensures WellFormed(Assign(info, key, value))
  {
    hide GoodValue, IsWhite;
    assert !StandardKey(key) ==> GoodExtra((key, value));
  }

  lemma {:induction false} AbsorbAllKeepsWellFormed(info: StreamIdInfo, pieces: seq<string>)
    requires WellFormed(info) && forall p | p in pieces :: ',' !in p
    ensures WellFormed(AbsorbAll(info, pieces))
  {
    if pieces != [] {
      AbsorbAllKeepsWellFormed(info, pieces[..|pieces| - 1]);
      AbsorbKeepsWellFormed(AbsorbAll(info, pieces[..|pieces| - 1]), pieces[|pieces| - 1]);
    }
  }

  /** Every structured Stream ID parses to a well-formed info, so printing what was parsed is an
      idempotent canonical form. */
  lemma ParseThenPrintIsCanonical(s: string)
    requires PREFIX <= s
    ensures WellFormed(Parsed(s))
    ensures Same(Parsed(Printed(Parsed(s))), Parsed(s))
    ensures Printed(Parsed(Printed(Parsed(s)))) == Printed(Parsed(s))
  {
    AbsorbAllKeepsWellFormed(Blank(s), Split(s[|PREFIX|..], ','));
    var info := Parsed(s);
    RoundTrip(info);
    hide Parsed;
    assert Parsed(Printed(info)) == info.(raw := Parsed(Printed(info)).raw);
  }

  /** An info survives printing and parsing exactly when it is well formed. */
  lemma RoundTripExactly(info: StreamIdInfo)
    ensures Same(Parsed(Printed(info)), info) <==> WellFormed(info)
  {
    if WellFormed(info) {
      RoundTrip(info);
    } else {
      if Standard(info) + info.extra != [] {
        ParseThenPrintIsCanonical(Printed(info));
      }
    }
    hide Parsed;
  }

  /** A bare Stream ID is its own resource; it survives exactly when it holds no comma and ends
      in no blank. */
  lemma BareRoundTrip(s: string)
    requires s != "" && !(PREFIX <= s)
    ensures Parsed(s).resource == Some(s)
    ensures Same(Parsed(Printed(Parsed(s))), Parsed(s)) <==> GoodValue(s)
  {
    RoundTripExactly(Parsed(s));
    hide Printed;
  }

  /** One that does not: a bare Stream ID with a comma. */
  lemma CommaIsLost()
    ensures !Same(Parsed(Printed(Parsed("a,b"))), Parsed("a,b"))
  {
    var s := "a,b";
    assert s[0] == 'a' && s[1] == ',';
    BareRoundTrip(s);
    hide Parsed, Printed;
  }

  // ── The text itself ──

  /** The piece, trimmed, is `key=value`. */
  ghost predicate Says(piece: string, key: string, value: string) {
    Trim(piece) == key + "=" + value && '=' !in key
  }

  /** The last piece that says `key`, if any does, says `value`. */
  ghost predicate LastSays(pieces: seq<string>, key: string, value: Option<string>) {
    match value
    case None => forall p, v | p in pieces :: !Says(p, key, v)
    case Some(x) =>
      exists i | 0 <= i < |pieces| ::
        Says(pieces[i], key, x) && forall j, v | i < j < |pieces| :: !Says(pieces[j], key, v)
  }

  /** The pieces with other keys, in order; those without `=` say nothing. */
  ghost predicate SaysOthers(pieces: seq<string>, extra: seq<(string, string)>) {
    if pieces == [] then extra == []
    else
      var init, p := pieces[..|pieces| - 1], pieces[|pieces| - 1];
      if '=' !in Trim(p) || (exists v, key | key in STANDARD_KEYS :: Says(p, key, v)) then SaysOthers(init, extra)
      else extra != [] && Says(p, extra[|extra| - 1].0, extra[|extra| - 1].1) && SaysOthers(init, extra[..|extra| - 1])
  }

  const STANDARD_KEYS := {"r", "m", "s", "t", "u", "h"}

  ghost predicate FieldsSaid(pieces: seq<string>, info: StreamIdInfo) {
    && LastSays(pieces, "r", info.resource) && LastSays(pieces, "m", info.mode)
    && LastSays(pieces, "s", info.sessionId) && LastSays(pieces, "t", info.contentType)
    && LastSays(pieces, "u", info.userName) && LastSays(pieces, "h", info.hostName)
  }

  /** What one piece says: the pair it is split into at its first `=`, and no other. */
  lemma PieceSays(piece: string)
    ensures match SplitOnce(Trim(piece), '=')
            case None => '=' !in Trim(piece) && forall key, v :: !Says(piece, key, v)
            case Some((key, value)) => forall k, v :: Says(piece, k, v) <==> k == key && v == value
  {
    var p := Trim(piece);
    forall k, v | Says(piece, k, v) ensures SplitOnce(p, '=') == Some((k, v)) {
      assert k + "=" + v == k + ['='] + v;
      SplitOnceAt(k, '=', v);
    }
  }

  lemma LastStays(pieces: seq<string>, p: string, key: string, value: Option<string>)
    requires LastSays(pieces, key, value) && forall v :: !Says(p, key, v)
    ensures LastSays(pieces + [p], key, value)
  {
    var all := pieces + [p];
    hide Says;
    if value.Some? {
      var i :| 0 <= i < |pieces| && Says(pieces[i], key, value.value)
               && forall j, v | i < j < |pieces| :: !Says(pieces[j], key, v);
      assert all[i] == pieces[i];
      assert forall j | i < j < |all| :: all[j] == if j < |pieces| then pieces[j] else p;
    }
  }

  lemma LastIsNew(pieces: seq<string>, p: string, key: string, value: string)
    requires Says(p, key, value)
    ensures LastSays(pieces + [p], key, Some(value))
  {
    assert (pieces + [p])[|pieces|] == p;
    hide Says;
  }

  ghost function FieldOf(info: StreamIdInfo, key: string): Option<string> {
    if key == "r" then info.resource
    else if key == "m" then info.mode
    else if key == "s" then info.sessionId
    else if key == "t" then info.contentType
    else if key == "u" then info.userName
    else if key == "h" then info.hostName
    else None
  }

  lemma AssignsField(info: StreamIdInfo, key: string, value: string, k: string)
    requires k in STANDARD_KEYS
    ensures FieldOf(Assign(info, key, value), k) == if k == key then Some(value) else FieldOf(info, k)
    ensures Assign(info, key, value).raw == info.raw
    ensures Assign(info, key, value).extra ==
            if key in STANDARD_KEYS then info.extra else info.extra + [(key, value)]
  {
  }

  lemma {:induction false} FieldIsLast(raw: string, pieces: seq<string>, key: string)
    requires key in STANDARD_KEYS
    ensures LastSays(pieces, key, FieldOf(AbsorbAll(Blank(raw), pieces), key))
  {
    if pieces != [] {
      var n := |pieces| - 1;
      var p, was := pieces[n], AbsorbAll(Blank(raw), pieces[..n]);
      FieldIsLast(raw, pieces[..n], key);
      PieceSays(p);
      assert pieces == pieces[..n] + [p];
      if SplitOnce(Trim(p), '=').Some? {
        var (k, v) := SplitOnce(Trim(p), '=').value;
        AssignsField(was, k, v, key);
        if k == key { LastIsNew(pieces[..n], p, key, v); }
      }
      hide Trim, SplitOnce, LastSays, Says, Assign, FieldOf;
      if forall v :: !Says(p, key, v) { LastStays(pieces[..n], p, key, FieldOf(was, key)); }
    }
  }

  lemma {:induction false} OthersAreKept(raw: string, pieces: seq<string>)
    ensures var info := AbsorbAll(Blank(raw), pieces); info.raw == raw && SaysOthers(pieces, info.extra)
  {
    if pieces != [] {
      var n := |pieces| - 1;
      var p, was := pieces[n], AbsorbAll(Blank(raw), pieces[..n]);
      OthersAreKept(raw, pieces[..n]);
      PieceSays(p);
      if SplitOnce(Trim(p), '=').Some? {
        var (k, v) := SplitOnce(Trim(p), '=').value;
        assert Says(p, k, v);
        AssignsField(was, k, v, "r");
        assert (was.extra + [(k, v)])[..|was.extra|] == was.extra;
      }
      hide Trim, Says, Assign;
    }
  }

  lemma AbsorbsWhatIsSaid(raw: string, pieces: seq<string>)
    ensures var info := AbsorbAll(Blank(raw), pieces);
            info.raw == raw && FieldsSaid(pieces, info) && SaysOthers(pieces, info.extra)
  {
    FieldIsLast(raw, pieces, "r");
    FieldIsLast(raw, pieces, "m");
    FieldIsLast(raw, pieces, "s");
    FieldIsLast(raw, pieces, "t");
    FieldIsLast(raw, pieces, "u");
    FieldIsLast(raw, pieces, "h");
    OthersAreKept(raw, pieces);
    hide LastSays, AbsorbAll, SaysOthers;
  }

  /** A Stream ID that starts `#!::` is read piece by piece, between commas: each standard field is what
      its last piece says, and the rest are kept in order. Any other is a resource name as it stands,
      and an empty one says nothing. */
  lemma ParsesWhatIsSaid(s: string)
    ensures |s| >= 4 && s[..4] == "#!::" ==>
              && Parsed(s).raw == s
              && FieldsSaid(Split(s[4..], ','), Parsed(s)) && SaysOthers(Split(s[4..], ','), Parsed(s).extra)
    ensures !(|s| >= 4 && s[..4] == "#!::") ==>
              Parsed(s) == StreamIdInfo(if s == "" then None else Some(s), None, None, None, None, None, [], s)
  {
    if |s| >= 4 && s[..4] == "#!::" {
      AbsorbsWhatIsSaid(s, Split(s[4..], ','));
    }
    hide AbsorbAll, Split, FieldsSaid, SaysOthers;
  }

  ghost function Shown(key: string, value: Option<string>): seq<string> {
    if value.None? then [] else [key + "=" + value.value]
  }

  /** An info prints as `#!::` and its parts between commas: the standard fields that are set, in the
      order r, m, s, t, u, h, and then the extra pairs; with none of them, as nothing. */
  lemma PrintsInOrder(info: StreamIdInfo)
    ensures var parts := Shown("r", info.resource) + Shown("m", info.mode) + Shown("s", info.sessionId) +
                         Shown("t", info.contentType) + Shown("u", info.userName) + Shown("h", info.hostName) +
                         seq(|info.extra|, i requires 0 <= i < |info.extra| => info.extra[i].0 + "=" + info.extra[i].1);
            && Printed(info) == (if parts == [] then "" else "#!::" + Join(parts, ','))
            && ((forall p | p in parts :: ',' !in p) && parts != [] ==> Split(Printed(info)[4..], ',') == parts)
  {
    var pairs := Standard(info) + info.extra;
    var parts := Shown("r", info.resource) + Shown("m", info.mode) + Shown("s", info.sessionId) +
                 Shown("t", info.contentType) + Shown("u", info.userName) + Shown("h", info.hostName) +
                 seq(|info.extra|, i requires 0 <= i < |info.extra| => info.extra[i].0 + "=" + info.extra[i].1);
    StandardParts(info);
    PartsTwo(Standard(info), info.extra);
    assert Parts(info.extra) ==
           seq(|info.extra|, i requires 0 <= i < |info.extra| => info.extra[i].0 + "=" + info.extra[i].1);
    PartsSize(pairs);
    hide Standard, Shown, Parts, Split, Join;
    if parts != [] {
      assert Printed(info)[4..] == Join(parts, ',');
      if forall p | p in parts :: ',' !in p { SplitJoin(parts, ','); }
    }
  }

  lemma PartsTwo(a: seq<(string, string)>, b: seq<(string, string)>)
    ensures Parts(a + b) == Parts(a) + Parts(b)
  {
  }

  lemma StandardParts(info: StreamIdInfo)
    ensures Parts(Standard(info)) ==
            Shown("r", info.resource) + Shown("m", info.mode) + Shown("s", info.sessionId) +
            Shown("t", info.contentType) + Shown("u", info.userName) + Shown("h", info.hostName)
  {
    var r, m, s := Field("r", info.resource), Field("m", info.mode), Field("s", info.sessionId);
    var t, u, h := Field("t", info.contentType), Field("u", info.userName), Field("h", info.hostName);
    ShownIs("r", info.resource); ShownIs("m", info.mode); ShownIs("s", info.sessionId);
    ShownIs("t", info.contentType); ShownIs("u", info.userName); ShownIs("h", info.hostName);
    PartsTwo(r, m);
    PartsTwo(r + m, s);
    PartsTwo(r + m + s, t);
    PartsTwo(r + m + s + t, u);
    PartsTwo(r + m + s + t + u, h);
    hide Parts, Field, Shown;
  }

  lemma ShownIs(key: string, value: Option<string>)
    ensures Parts(Field(key, value)) == Shown(key, value)
  {
  }
}
