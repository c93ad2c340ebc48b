/** Splitting, joining and trimming text, as the two parsers do. */
module Text {
  import opened SrtTypes

  /** Unicode White_Space, which trimming removes. */
  predicate IsWhite(c: char) {
    var n := c as int;
    || 9 <= n <= 13 || n == 32 || n == 0x85 || n == 0xA0 || n == 0x1680 || 0x2000 <= n <= 0x200A
    || n in {0x2028, 0x2029, 0x202F, 0x205F, 0x3000}
  }

  function TrimStart(s: string): (r: string)
    ensures forall c | c in r :: c in s
    ensures r != "" ==> !IsWhite(r[0])
    ensures s != "" && !IsWhite(s[0]) ==> r == s
  {
    if s != "" && IsWhite(s[0]) then TrimStart(s[1..]) else s
  }

  function TrimEnd(s: string): (r: string)
    ensures r <= s
    ensures r != "" ==> !IsWhite(r[|r| - 1])
    ensures s != "" && !IsWhite(s[|s| - 1]) ==> r == s
  {
    if s != "" && IsWhite(s[|s| - 1]) then TrimEnd(s[..|s| - 1]) else s
  }

  function Trim(s: string): (r: string)
    ensures forall c | c in r :: c in s
    ensures r != "" ==> !IsWhite(r[0]) && !IsWhite(r[|r| - 1])
    ensures s != "" && !IsWhite(s[0]) && !IsWhite(s[|s| - 1]) ==> r == s
  {
    TrimEnd(TrimStart(s))
  }

  /** The first position of `c`, or the length of `s`. */
  function Find(s: string, c: char): (i: nat)
    ensures i <= |s| && c !in s[..i]
    ensures i < |s| ==> s[i] == c
  {
    if s == "" || s[0] == c then 0
    else
      assert forall k | 0 <= k < 1 + Find(s[1..], c) :: s[k] == if k == 0 then s[0] else s[1..][k-1];
      1 + Find(s[1..], c)
  }

  /** The text before and after the first `c`. */
  function SplitOnce(s: string, c: char): (r: Option<(string, string)>)
    ensures r.Some? ==> s == r.value.0 + [c] + r.value.1 && c !in r.value.0
    ensures r.None? <==> c !in s
  {
    var i := Find(s, c);
    if i == |s| then
      assert s[..i] == s;
      None
    else Some((s[..i], s[i+1..]))
  }

  function Split(s: string, c: char): (r: seq<string>)
    ensures r != []
    ensures forall p | p in r :: c !in p && forall x | x in p :: x in s
    decreases |s|
  {
    match SplitOnce(s, c)
    case None => [s]
    case Some((head, tail)) => [head] + Split(tail, c)
  }

  function Join(parts: seq<string>, c: char): string {
    if parts == [] then ""
    else if |parts| == 1 then parts[0]
    else parts[0] + [c] + Join(parts[1..], c)
  }

  lemma SplitOnceAt(k: string, c: char, v: string)
    requires c !in k
    ensures SplitOnce(k + [c] + v, c) == Some((k, v))
  {
    var s := k + [c] + v;
    assert s[|k|] == c;
    var i := Find(s, c);
    assert forall j | 0 <= j < |k| :: s[j] == k[j];
    assert forall j | 0 <= j < i :: s[j] == s[..i][j];
    assert i == |k| && s[..i] == k && s[i+1..] == v;
  }

  /** Splitting undoes joining, for parts without the separator. */
  lemma {:induction false} SplitJoin(parts: seq<string>, c: char)
    requires parts != [] && forall p | p in parts :: c !in p
    ensures Split(Join(parts, c), c) == parts
  {
    if |parts| > 1 {
      SplitOnceAt(parts[0], c, Join(parts[1..], c));
      SplitJoin(parts[1..], c);
    }
  }

  /** Joining what was split gives back the text. */
  lemma {:induction false} JoinSplit(s: string, c: char)
    ensures Join(Split(s, c), c) == s
    decreases |s|
  {
    match SplitOnce(s, c)
    case None =>
    case Some((head, tail)) =>
      JoinSplit(tail, c);
      assert ([head] + Split(tail, c))[1..] == Split(tail, c);
  }

  /** Trimming takes off blanks, all of them at either end, and nothing else. */
  lemma TrimsBlanks(s: string) returns (a: string, b: string)
    ensures s == a + Trim(s) + b && (forall c | c in a || c in b :: IsWhite(c))
    ensures Trim(s) != "" ==> !IsWhite(Trim(s)[0]) && !IsWhite(Trim(s)[|Trim(s)| - 1])
  {
    a := TrimsStart(s);
    b := TrimsEnd(TrimStart(s));
    hide TrimStart, TrimEnd, IsWhite;
  }

  lemma {:induction false} TrimsStart(s: string) returns (a: string)
    ensures s == a + TrimStart(s) && forall c | c in a :: IsWhite(c)
  {
    a := "";
    if s != "" && IsWhite(s[0]) {
      a := TrimsStart(s[1..]);
      a := [s[0]] + a;
    }
  }

  lemma {:induction false} TrimsEnd(s: string) returns (b: string)
    ensures s == TrimEnd(s) + b && forall c | c in b :: IsWhite(c)
  {
    b := "";
    if s != "" && IsWhite(s[|s| - 1]) {
      b := TrimsEnd(s[..|s| - 1]);
      b := b + [s[|s| - 1]];
    }
  }

  /** The 25 blanks of Unicode's White_Space. */
  lemma BlanksAre(c: char)
    ensures IsWhite(c) <==>
            c as int in {9, 10, 11, 12, 13, 32, 133, 160, 5760, 8192, 8193, 8194, 8195, 8196, 8197, 8198, 8199,
                         8200, 8201, 8202, 8232, 8233, 8239, 8287, 12288}
  {
  }
}
