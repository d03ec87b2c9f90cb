/** The string helpers the service leans on: Go's TrimSpace, ToLower, Fields, Join and
    Contains, and the byte-wise string order. Characters are code points; on valid UTF-8
    the byte-wise order and the code-point order agree. */
module Text {

  /** unicode.IsSpace. */
  predicate IsSpace(c: char) {
    || '\t' <= c <= '\r' || c == ' ' || c == '\U{0085}' || c == '\U{00A0}' || c == '\U{1680}'
    || '\U{2000}' <= c <= '\U{200A}' || c == '\U{2028}' || c == '\U{2029}' || c == '\U{202F}'
    || c == '\U{205F}' || c == '\U{3000}'
  }

  /** Below 128 these six are the white space. */
  lemma AsciiSpaces(c: char)
    requires c < '\U{0080}'
    ensures IsSpace(c) <==> c in {' ', '\t', '\n', '\U{000B}', '\U{000C}', '\r'}
  {
  }

  predicate AllSpace(s: string) {
    forall i :: 0 <= i < |s| ==> IsSpace(s[i])
  }

  /** Only white space separates s from its middle part r. */
  predicate OnlySpaceAround(s: string, a: string, r: string, b: string) {
    s == a + r + b && AllSpace(a) && AllSpace(b)
  }

  predicate Trimmed(s: string) {
    s == "" || (!IsSpace(s[0]) && !IsSpace(s[|s| - 1]))
  }

  /** A field: non-empty and free of white space. */
  predicate Word(s: string) {
    s != "" && forall i :: 0 <= i < |s| ==> !IsSpace(s[i])
  }

  function SkipSpace(s: string): (r: string)
    ensures |r| <= |s| && (r == "" || !IsSpace(r[0]))
  {
    if s != "" && IsSpace(s[0]) then SkipSpace(s[1..]) else s
  }

  function DropTrailingSpace(s: string): string {
    if s != "" && IsSpace(s[|s| - 1]) then DropTrailingSpace(s[..|s| - 1]) else s
  }

  /** strings.TrimSpace. */
  function TrimSpace(s: string): string {
    DropTrailingSpace(SkipSpace(s))
  }

  lemma {:induction false} SkipSound(s: string)
    ensures var t := SkipSpace(s);
            && |t| <= |s| && t == s[|s| - |t|..] && AllSpace(s[..|s| - |t|]) && (t == "" || !IsSpace(t[0]))
  {
    if s != "" && IsSpace(s[0]) {
      SkipSound(s[1..]);
      var t := SkipSpace(s);
      assert t == s[1..][|s| - 1 - |t|..] == s[|s| - |t|..];
      assert s[..|s| - |t|] == [s[0]] + s[1..][..|s| - 1 - |t|];
    }
  }

  lemma {:induction false} DropSound(s: string)
    ensures var r := DropTrailingSpace(s);
            && r <= s && AllSpace(s[|r|..]) && (r == "" || !IsSpace(r[|r| - 1]))
  {
    if s != "" && IsSpace(s[|s| - 1]) {
      DropSound(s[..|s| - 1]);
      var r := DropTrailingSpace(s);
      assert s[|r|..] == s[..|s| - 1][|r|..] + [s[|s| - 1]];
    }
  }

  /** What TrimSpace leaves is trimmed, only white space is lost, and a trimmed string is left
      alone. */
  lemma TrimSound(s: string)
    ensures var r := TrimSpace(s);
            Trimmed(r) && (exists a, b :: OnlySpaceAround(s, a, r, b)) && (Trimmed(s) ==> r == s)
  {
    var t := SkipSpace(s);
    SkipSound(s);
    var r := DropTrailingSpace(t);
    DropSound(t);
    Pieces(s, t, r);
    hide SkipSpace, DropTrailingSpace, IsSpace, AllSpace;
    assert OnlySpaceAround(s, s[..|s| - |t|], r, t[|r|..]);
    assert r != "" ==> r[0] == t[0];
    if Trimmed(s) { TrimmedStays(s); }
  }

  lemma TrimmedStays(s: string)
    requires Trimmed(s)
    ensures TrimSpace(s) == s
  {
  }

  /** Nothing is left exactly when there was only white space. */
  lemma TrimEmpty(s: string)
    ensures TrimSpace(s) == "" <==> AllSpace(s)
  {
    TrimSound(s);
    var r := TrimSpace(s);
    var a, b :| OnlySpaceAround(s, a, r, b);
    if r == "" {
      assert s == a + b;
    } else {
      assert s[|a|] == r[0];
    }
  }

  lemma Pieces(s: string, t: string, r: string)
    requires |t| <= |s| && t == s[|s| - |t|..] && r <= t
    ensures s == s[..|s| - |t|] + r + t[|r|..]
  {
  }

  function LowerChar(c: char): char {
    if 'A' <= c <= 'Z' then c - 'A' + 'a' else c
  }

  predicate LowerCase(c: char) {
    !('A' <= c <= 'Z')
  }

  /** strings.ToLower on the ASCII letters. */
  function ToLower(s: string): string {
    seq(|s|, i requires 0 <= i < |s| => LowerChar(s[i]))
  }

  const CAPITALS := "ABCDEFGHIJKLMNOPQRSTUVWXYZ"
  const SMALL := "abcdefghijklmnopqrstuvwxyz"

  /** r is s with each capital letter replaced by the small one in its place. */
  predicate Lowered(s: string, r: string) {
    && |r| == |s|
    && (forall i, k :: 0 <= i < |s| && 0 <= k < 26 && s[i] == CAPITALS[k] ==> r[i] == SMALL[k])
    && (forall i :: 0 <= i < |s| && s[i] !in CAPITALS ==> r[i] == s[i])
  }

  /** So nothing capital is left, and what was small already stays as it was. */
  lemma LowerSound(s: string)
    ensures var r := ToLower(s);
            && Lowered(s, r)
            && (forall i :: 0 <= i < |r| ==> LowerCase(r[i])) && (Trimmed(s) ==> Trimmed(r))
            && ((forall i :: 0 <= i < |s| ==> LowerCase(s[i])) ==> r == s)
  {
    forall i, k | 0 <= i < |s| && 0 <= k < 26 && s[i] == CAPITALS[k] ensures ToLower(s)[i] == SMALL[k] {
      Alphabet(k);
    }
    forall i | 0 <= i < |s| && s[i] !in CAPITALS ensures ToLower(s)[i] == s[i] {
      if 'A' <= s[i] <= 'Z' { Alphabet((s[i] - 'A') as int); }
    }
    LowerStaysTrimmed(s);
  }

  /** Only one text is s in small letters. */
  lemma LoweredIsUnique(s: string, r: string)
    requires Lowered(s, r)
    ensures r == ToLower(s)
  {
    LowerSound(s);
    hide ToLower, CAPITALS, SMALL, LowerCase;
    forall i | 0 <= i < |s| ensures r[i] == ToLower(s)[i] {
      if s[i] in CAPITALS {
        CapitalAt(s[i]);
        var k :| 0 <= k < 26 && CAPITALS[k] == s[i];
      }
    }
  }

  lemma CapitalAt(c: char)
    requires c in CAPITALS
    ensures |CAPITALS| == |SMALL| == 26 && exists k :: 0 <= k < 26 && CAPITALS[k] == c
  {
  }

  lemma Alphabet(k: int)
    requires 0 <= k < 26
    ensures CAPITALS[k] == 'A' + k as char && SMALL[k] == 'a' + k as char
  {
  }

  lemma LowerStaysTrimmed(s: string)
    ensures var r := ToLower(s);
            && (forall i :: 0 <= i < |r| ==> LowerCase(r[i])) && (Trimmed(s) ==> Trimmed(r))
            && ((forall i :: 0 <= i < |s| ==> LowerCase(s[i])) ==> r == s)
  {
  }

  /** Length of the longest prefix without white space. */
  function WordLength(s: string): (n: nat)
    ensures n <= |s|
  {
    if s == "" || IsSpace(s[0]) then 0 else 1 + WordLength(s[1..])
  }

  /** strings.Fields. */
  function Fields(s: string): seq<string>
    decreases |s|
  {
    var t := SkipSpace(s);
    if t == "" then [] else
      var n := WordLength(t);
      [t[..n]] + Fields(t[n..])
  }

  lemma {:induction false} FieldsAreWords(s: string)
    ensures forall w :: w in Fields(s) ==> Word(w)
    decreases |s|
  {
    var t := SkipSpace(s);
    if t != "" {
      FieldsAreWords(t[WordLength(t)..]);
      FirstWord(t);
    }
  }

  lemma FirstWord(t: string)
    requires t != "" && !IsSpace(t[0])
    ensures Word(t[..WordLength(t)])
  {
  }

  /** ws are the words of s: white space, the first word, white space or the end, and so on. */
  ghost predicate Splits(s: string, ws: seq<string>)
    decreases |ws|
  {
    if ws == [] then AllSpace(s) else
      Word(ws[0]) && exists gap, rest :: WordThen(s, gap, ws[0], rest) && Splits(rest, ws[1..])
  }

  predicate WordThen(s: string, gap: string, w: string, rest: string) {
    s == gap + w + rest && AllSpace(gap) && (rest == "" || IsSpace(rest[0]))
  }

  lemma {:induction false} SkipGap(gap: string, t: string)
    requires AllSpace(gap)
    ensures SkipSpace(gap + t) == SkipSpace(t)
    decreases |gap|
  {
    if gap == "" {
      assert gap + t == t;
    } else {
      assert (gap + t)[1..] == gap[1..] + t;
      SkipGap(gap[1..], t);
    }
  }

  /** A text has its fields as words, and no others. */
  lemma {:induction false} FieldsExactly(s: string, ws: seq<string>)
    ensures Splits(s, ws) <==> ws == Fields(s)
    decreases |s| + |ws|
  {
    FieldsSplit(s);
    if Splits(s, ws) { SplitIsFields(s, ws); }
  }

  lemma {:induction false} FieldsSplit(s: string)
    ensures Splits(s, Fields(s))
    decreases |s|
  {
    var t := SkipSpace(s);
    SkipSound(s);
    if t == "" {
      assert s[..|s|] == s;
    } else {
      var n := WordLength(t);
      FirstWord(t);
      StopsAtSpace(t);
      FieldsSplit(t[n..]);
      assert WordThen(s, s[..|s| - |t|], t[..n], t[n..]);
      assert Fields(s)[1..] == Fields(t[n..]);
    }
  }

  lemma {:induction false} StopsAtSpace(t: string)
    ensures t[WordLength(t)..] == "" || IsSpace(t[WordLength(t)])
  {
    if t != "" && !IsSpace(t[0]) {
      StopsAtSpace(t[1..]);
    }
  }

  lemma {:induction false} SplitIsFields(s: string, ws: seq<string>)
    requires Splits(s, ws)
    ensures ws == Fields(s)
    decreases |ws|
  {
    if ws == [] {
      assert s + "" == s;
      SkipGap(s, "");
    } else {
      var gap, rest :| WordThen(s, gap, ws[0], rest) && Splits(rest, ws[1..]);
      assert s == gap + (ws[0] + rest);
      SkipGap(gap, ws[0] + rest);
      SameFields(s, ws[0] + rest);
      FirstField(ws[0], rest);
      SplitIsFields(rest, ws[1..]);
      assert ws == [ws[0]] + ws[1..];
    }
  }

  lemma SameFields(s: string, t: string)
    requires SkipSpace(s) == SkipSpace(t)
    ensures Fields(s) == Fields(t)
  {
  }

  /** strings.Join with a single blank. */
  function JoinBlank(ws: seq<string>): string {
    if ws == [] then "" else if |ws| == 1 then ws[0] else ws[0] + " " + JoinBlank(ws[1..])
  }

  lemma SkipOneBlank(s: string)
    ensures SkipSpace(" " + s) == SkipSpace(s) && Fields(" " + s) == Fields(s)
  {
  }

  lemma {:induction false} WordLengthStops(w: string, rest: string)
    requires forall i :: 0 <= i < |w| ==> !IsSpace(w[i])
    requires rest == "" || IsSpace(rest[0])
    ensures WordLength(w + rest) == |w|
  {
    if w == "" {
      assert w + rest == rest;
    } else {
      assert (w + rest)[1..] == w[1..] + rest;
      WordLengthStops(w[1..], rest);
    }
  }

  lemma FirstField(w: string, rest: string)
    requires Word(w) && (rest == "" || IsSpace(rest[0]))
    ensures Fields(w + rest) == [w] + Fields(rest)
  {
    var s := w + rest;
    WordLengthStops(w, rest);
    assert s[0] == w[0];
    assert SkipSpace(s) == s;
    assert s[..|w|] == w && s[|w|..] == rest;
  }

  /** Splitting what was joined gives the words back. */
  lemma {:induction false} FieldsOfJoin(ws: seq<string>)
    requires forall w :: w in ws ==> Word(w)
    ensures Fields(JoinBlank(ws)) == ws
  {
    if ws != [] {
      FieldsOfJoin(ws[1..]);
      OneMoreWord(ws[0], ws[1..]);
      assert [ws[0]] + ws[1..] == ws;
    }
  }

  /** Where word k stands: each word before it and one blank after each. */
  function Offset(ws: seq<string>, k: nat): nat
    requires k <= |ws|
  {
    if k == 0 then 0 else Offset(ws, k - 1) + |ws[k - 1]| + 1
  }

  lemma {:induction false} OffsetFromFront(ws: seq<string>, k: nat)
    requires 1 <= k <= |ws|
    ensures Offset(ws, k) == |ws[0]| + 1 + Offset(ws[1..], k - 1)
  {
    if k > 1 { OffsetFromFront(ws, k - 1); }
  }

  /** The words stand one after the other, a single blank between neighbours, and nothing else. */
  predicate Spaced(s: string, ws: seq<string>) {
    && (if ws == [] then s == "" else |s| == Offset(ws, |ws|) - 1)
    && forall k :: 0 <= k < |ws| ==> StandsAt(s, ws, k)
  }

  predicate StandsAt(s: string, ws: seq<string>, k: nat)
    requires k < |ws|
  {
    var at := Offset(ws, k);
    && at + |ws[k]| <= |s| && s[at..at + |ws[k]|] == ws[k]
    && (k > 0 ==> s[at - 1] == ' ')
  }

  lemma JoinIsSpaced(ws: seq<string>)
    ensures Spaced(JoinBlank(ws), ws)
  {
    forall k | 0 <= k < |ws| ensures StandsAt(JoinBlank(ws), ws, k) { JoinedAt(ws, k); }
    if ws != [] { JoinedAt(ws, 0); }
  }

  lemma {:induction false} JoinedAt(ws: seq<string>, k: nat)
    requires k < |ws|
    ensures |JoinBlank(ws)| == Offset(ws, |ws|) - 1 && StandsAt(JoinBlank(ws), ws, k)
    decreases |ws|
  {
    if |ws| > 1 {
      var rest := ws[1..];
      OffsetFromFront(ws, |ws|);
      JoinedAt(rest, if k == 0 then 0 else k - 1);
      assert JoinBlank(ws) == (ws[0] + " ") + JoinBlank(rest);
      if k > 0 {
        OffsetFromFront(ws, k);
        Shifted(ws[0] + " ", JoinBlank(rest), Offset(rest, k - 1), |ws[k]|);
      }
    }
  }

  lemma Shifted(a: string, b: string, at: nat, n: nat)
    requires at + n <= |b|
    ensures (a + b)[|a| + at..|a| + at + n] == b[at..at + n]
  {
  }

  function BlankBefore(rest: seq<string>): string {
    if rest == [] then "" else " " + JoinBlank(rest)
  }

  lemma JoinCons(w: string, rest: seq<string>)
    ensures JoinBlank([w] + rest) == w + BlankBefore(rest)
  {
  }

  lemma OneMoreWord(w: string, rest: seq<string>)
    requires Word(w) && Fields(JoinBlank(rest)) == rest
    ensures Fields(JoinBlank([w] + rest)) == [w] + rest
  {
    JoinCons(w, rest);
    SkipOneBlank(JoinBlank(rest));
    FirstField(w, BlankBefore(rest));
  }

  /** strings.Contains. */
  predicate Contains(s: string, part: string) {
    exists i | 0 <= i <= |s| :: part <= s[i..]
  }

  predicate Around(s: string, a: string, part: string, b: string) {
    s == a + part + b
  }

  lemma ContainsExactly(s: string, part: string)
    ensures Contains(s, part) <==> exists a, b :: Around(s, a, part, b)
  {
    if Contains(s, part) {
      var i :| 0 <= i <= |s| && part <= s[i..];
      assert s == s[..i] + s[i..] && s[i..] == part + s[i..][|part|..];
      assert Around(s, s[..i], part, s[i..][|part|..]);
    }
    if a, b :| Around(s, a, part, b) {
      assert s[|a|..] == part + b;
    }
  }

  /** Go's < on strings. */
  predicate Less(a: string, b: string) {
    b != "" && (a == "" || a[0] < b[0] || (a[0] == b[0] && Less(a[1..], b[1..])))
  }

  lemma {:induction false} LessTrichotomy(a: string, b: string)
    ensures Less(a, b) || Less(b, a) || a == b
    ensures !(Less(a, b) && Less(b, a))
    ensures a == b ==> !Less(a, b)
  {
    if a != "" && b != "" && a[0] == b[0] {
      LessTrichotomy(a[1..], b[1..]);
      assert a == [a[0]] + a[1..] && b == [b[0]] + b[1..];
    }
  }

  /** a is less than b exactly when, after what they have in common, a ends or goes on with a
      smaller character. */
  lemma {:induction false} LessExactly(a: string, b: string)
    ensures Less(a, b) <==> exists k: nat :: FirstDifference(a, b, k)
  {
    if a != "" && b != "" && a[0] == b[0] {
      LessExactly(a[1..], b[1..]);
      if k: nat :| FirstDifference(a[1..], b[1..], k) {
        assert a[..k + 1] == [a[0]] + a[1..][..k] && b[..k + 1] == [b[0]] + b[1..][..k];
        assert FirstDifference(a, b, k + 1);
      }
      if k: nat :| FirstDifference(a, b, k) {
        assert a[..k] == b[..k];
        assert a[..k][1..] == a[1..][..k - 1] && b[..k][1..] == b[1..][..k - 1];
        assert FirstDifference(a[1..], b[1..], k - 1);
      }
    } else if Less(a, b) {
      assert FirstDifference(a, b, 0);
    }
  }

  predicate FirstDifference(a: string, b: string, k: nat) {
    k <= |a| && k < |b| && a[..k] == b[..k] && (k == |a| || a[k] < b[k])
  }

  lemma {:induction false} LessTransitive(a: string, b: string, c: string)
    requires Less(a, b) && Less(b, c)
    ensures Less(a, c)
  {
    if a != "" && a[0] == b[0] && b[0] == c[0] {
      LessTransitive(a[1..], b[1..], c[1..]);
    }
  }
}
