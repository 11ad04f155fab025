/** The string operations of the JavaScript runtime that the engine relies
    on: `toLowerCase` (ASCII letters only), the `\s` whitespace class, `trim`,
    `split(/\s+/)`, `includes`, `join` and decimal formatting of an index. */
module Strings {

  /** A character of the ECMAScript `\s` class (WhiteSpace and LineTerminator). */
  predicate IsSpace(c: char)
  {
    c == ' ' || c == '\t' || c == '\n' || c == '\r' || c == '\U{000B}' || c == '\U{000C}'
    || c == '\U{00A0}' || c == '\U{1680}' || ('\U{2000}' <= c <= '\U{200A}')
    || c == '\U{2028}' || c == '\U{2029}' || c == '\U{202F}' || c == '\U{205F}'
    || c == '\U{3000}' || c == '\U{FEFF}'
  }

  predicate NoSpace(s: string)
  {
    forall i :: 0 <= i < |s| ==> !IsSpace(s[i])
  }

  predicate AllSpace(s: string)
  {
    forall i :: 0 <= i < |s| ==> IsSpace(s[i])
  }

  function LowerChar(c: char): (d: char)
    ensures 'A' <= c <= 'Z' ==> d as int == c as int + 32
    ensures !('A' <= c <= 'Z') ==> d == c
  {
    if 'A' <= c <= 'Z' then (c as int + 32) as char else c
  }

  /** `toLowerCase`, restricted to the ASCII letters. */
  function Lower(s: string): (r: string)
    ensures |r| == |s|
    ensures forall i :: 0 <= i < |s| ==> r[i] == LowerChar(s[i])
  {
    seq(|s|, i requires 0 <= i < |s| => LowerChar(s[i]))
  }

  lemma LowerConcat(a: string, b: string)
    ensures Lower(a + b) == Lower(a) + Lower(b)
  {
  }

  /** Lower-casing twice is lower-casing once. */
  lemma LowerIdempotent(s: string)
    ensures Lower(Lower(s)) == Lower(s)
  {
  }

  /** Lower-casing neither adds nor removes whitespace. */
  lemma LowerKeepsSpaces(s: string)
    ensures forall i :: 0 <= i < |s| ==> (IsSpace(Lower(s)[i]) <==> IsSpace(s[i]))
  {
  }

  /** The end of the text of `s[lo..hi]` once its trailing whitespace is
      dropped. */
  function TrimEnd(s: string, lo: nat, hi: nat): (b: nat)
    requires lo <= hi <= |s|
    ensures lo <= b <= hi
    ensures forall k :: b <= k < hi ==> IsSpace(s[k])
    ensures b > lo ==> !IsSpace(s[b - 1])
    decreases hi
  {
    if hi > lo && IsSpace(s[hi - 1]) then TrimEnd(s, lo, hi - 1) else hi
  }

  /** `s.trim()`: the contiguous part of `s` between its leading and its
      trailing whitespace; empty exactly when `s` is all whitespace. */
  function Trim(s: string): (r: string)
    ensures var a := SkipSpaces(s, 0); var b := TrimEnd(s, a, |s|);
      && r == s[a..b]
      && (forall k :: 0 <= k < a ==> IsSpace(s[k]))
      && (forall k :: b <= k < |s| ==> IsSpace(s[k]))
    ensures r != "" ==> !IsSpace(r[0]) && !IsSpace(r[|r| - 1])
    ensures r == "" <==> AllSpace(s)
  {
    var a := SkipSpaces(s, 0);
    var b := TrimEnd(s, a, |s|);
    assert a < b ==> s[a..b][0] == s[a] && s[a..b][b - a - 1] == s[b - 1];
    assert AllSpace(s) ==> a == |s|;
    s[a..b]
  }

  /** The first index at or after `i` that holds whitespace, or `|s|`. */
  function NextSpace(s: string, i: nat): (j: nat)
    requires i <= |s|
    ensures i <= j <= |s|
    ensures forall k :: i <= k < j ==> !IsSpace(s[k])
    ensures j < |s| ==> IsSpace(s[j])
    decreases |s| - i
  {
    if i == |s| || IsSpace(s[i]) then i else NextSpace(s, i + 1)
  }

  /** The first index at or after `i` that does not hold whitespace, or `|s|`. */
  function SkipSpaces(s: string, i: nat): (j: nat)
    requires i <= |s|
    ensures i <= j <= |s|
    ensures forall k :: i <= k < j ==> IsSpace(s[k])
    ensures j < |s| ==> !IsSpace(s[j])
    decreases |s| - i
  {
    if i == |s| || !IsSpace(s[i]) then i else SkipSpaces(s, i + 1)
  }

  /** `s.split(/\s+/)`: the pieces between maximal runs of whitespace,
      with an empty first (last) piece when `s` starts (ends) with
      whitespace, and `[""]` for the empty string. Only the first and
      the last piece can be empty. */
  function SplitOnSpaces(s: string): (r: seq<string>)
    ensures |r| >= 1
    ensures forall i :: 0 <= i < |r| ==> NoSpace(r[i])
    ensures forall i :: 0 < i < |r| - 1 ==> r[i] != ""
    ensures s != "" && !IsSpace(s[0]) ==> r[0] != ""
    decreases |s|
  {
    var i := NextSpace(s, 0);
    if i == |s| then [s]
    else
      var k := SkipSpaces(s, i);
      [s[..i]] + SplitOnSpaces(s[k..])
  }

  /** `s` with every whitespace character deleted. */
  function Squeeze(s: string): (r: string)
    ensures NoSpace(r)
    decreases |s|
  {
    if s == "" then "" else (if IsSpace(s[0]) then "" else [s[0]]) + Squeeze(s[1..])
  }

  /** The concatenation of a sequence of strings. */
  function Concat(parts: seq<string>): string
    decreases |parts|
  {
    if parts == [] then "" else parts[0] + Concat(parts[1..])
  }

  lemma {:induction false} SqueezeNoSpace(s: string)
    requires NoSpace(s)
    ensures Squeeze(s) == s
    decreases |s|
  {
    if s != "" {
      SqueezeNoSpace(s[1..]);
    }
  }

  lemma {:induction false} SqueezeAllSpace(s: string)
    requires AllSpace(s)
    ensures Squeeze(s) == ""
    decreases |s|
  {
    if s != "" {
      SqueezeAllSpace(s[1..]);
    }
  }

  /** Splitting loses exactly the whitespace: gluing the pieces back
      together gives `s` with its whitespace removed. */
  lemma {:induction false} SplitOnSpacesConcat(s: string)
    ensures Concat(SplitOnSpaces(s)) == Squeeze(s)
    decreases |s|
  {
    var i := NextSpace(s, 0);
    if i == |s| {
      assert s[..i] == s;
      SqueezeNoSpace(s);
    } else {
      var k := SkipSpaces(s, i);
      var rest := SplitOnSpaces(s[k..]);
      assert SplitOnSpaces(s) == [s[..i]] + rest;
      ConcatCons(s[..i], rest);
      SplitOnSpacesConcat(s[k..]);
      SqueezeAtGap(s, i, k);
    }
  }

  lemma ConcatCons(x: string, rest: seq<string>)
    ensures Concat([x] + rest) == x + Concat(rest)
  {
    assert ([x] + rest)[1..] == rest;
  }

  /** Squeezing a string whose first `i` characters are text, followed by
      whitespace up to `k`. */
  lemma {:induction false} SqueezeAtGap(s: string, i: nat, k: nat)
    requires i <= k <= |s|
    requires forall j :: 0 <= j < i ==> !IsSpace(s[j])
    requires forall j :: i <= j < k ==> IsSpace(s[j])
    ensures Squeeze(s) == s[..i] + Squeeze(s[k..])
    decreases k
  {
    if k == 0 {
      assert s[k..] == s;
    } else {
      var t := s[1..];
      assert t[k - 1..] == s[k..];
      if i > 0 {
        assert !IsSpace(s[0]);
        SqueezeAtGap(t, i - 1, k - 1);
        assert [s[0]] + t[..i - 1] == s[..i];
      } else {
        assert IsSpace(s[0]);
        SqueezeAtGap(t, 0, k - 1);
      }
    }
  }

  /** The pieces `p` with the gaps `g` between them,
      `p[0] + g[0] + p[1] + ... + g[|g| - 1] + p[|g|]`. */
  function Weave(p: seq<string>, g: seq<string>): string
    requires |p| == |g| + 1
    decreases |g|
  {
    if g == [] then p[0] else p[0] + g[0] + Weave(p[1..], g[1..])
  }

  /** `p` cuts `s` at its maximal whitespace runs `g`: the pieces hold no
      whitespace, the gaps are non-empty whitespace, only the first and the
      last piece may be empty, and weaving them together gives back `s`. */
  ghost predicate IsSplitOf(s: string, p: seq<string>, g: seq<string>)
  {
    && |p| == |g| + 1
    && (forall i :: 0 <= i < |p| ==> NoSpace(p[i]))
    && (forall i :: 0 < i < |p| - 1 ==> p[i] != "")
    && (forall i :: 0 <= i < |g| ==> g[i] != "" && AllSpace(g[i]))
    && Weave(p, g) == s
  }

  /** A piece and a gap in front of a split give a split. */
  lemma SplitCons(x: string, gap: string, t: string, rest: seq<string>, g: seq<string>)
    requires NoSpace(x) && gap != "" && AllSpace(gap)
    requires IsSplitOf(t, rest, g)
    requires |rest| > 1 ==> rest[0] != ""
    ensures IsSplitOf(x + gap + t, [x] + rest, [gap] + g)
  {
    var p, h := [x] + rest, [gap] + g;
    assert p[0] == x && p[1..] == rest && h[0] == gap && h[1..] == g;
    forall j | 0 <= j < |p| ensures NoSpace(p[j]) {
      if j > 0 {
        assert p[j] == rest[j - 1];
      }
    }
    forall j | 0 < j < |p| - 1 ensures p[j] != "" {
      assert p[j] == rest[j - 1];
    }
    forall j | 0 <= j < |h| ensures h[j] != "" && AllSpace(h[j]) {
      if j > 0 {
        assert h[j] == g[j - 1];
      }
    }
  }

  lemma SlicesJoin(s: string, i: nat, k: nat)
    requires i <= k <= |s|
    ensures s[..i] + s[i..k] + s[k..] == s
  {
  }

  /** The pieces of `split(/\s+/)` together with the runs it cut at. */
  lemma {:induction false} SplitGaps(s: string) returns (g: seq<string>)
    ensures IsSplitOf(s, SplitOnSpaces(s), g)
    decreases |s|
  {
    var i := NextSpace(s, 0);
    if i == |s| {
      assert s[..i] == s;
      g := [];
    } else {
      var k := SkipSpaces(s, i);
      var rest := SplitOnSpaces(s[k..]);
      var g' := SplitGaps(s[k..]);
      assert SplitOnSpaces(s) == [s[..i]] + rest;
      assert k < |s| ==> rest[0] != "";
      assert k == |s| ==> rest == [""];
      SplitCons(s[..i], s[i..k], s[k..], rest, g');
      SlicesJoin(s, i, k);
      g := [s[i..k]] + g';
    }
  }

  /** A split into such pieces and gaps is the one `split(/\s+/)` makes. */
  /** Dropping the first piece and gap of a split leaves a split of the rest. */
  lemma SplitTail(s: string, p: seq<string>, g: seq<string>)
    requires IsSplitOf(s, p, g) && g != []
    ensures s == p[0] + g[0] + Weave(p[1..], g[1..])
    ensures IsSplitOf(Weave(p[1..], g[1..]), p[1..], g[1..])
    ensures Weave(p[1..], g[1..]) != "" ==> !IsSpace(Weave(p[1..], g[1..])[0])
  {
    var w := Weave(p[1..], g[1..]);
    assert w != "" ==> !IsSpace(w[0]) by {
      if g[1..] == [] {
        assert w == p[1..][0] == p[1];
        assert NoSpace(p[1]);
      } else {
        assert p[1] != "";
        assert NoSpace(p[1]);
        assert w == p[1] + g[1..][0] + Weave(p[1..][1..], g[1..][1..]);
      }
    }
    forall j | 0 <= j < |p[1..]| ensures NoSpace(p[1..][j]) {
      assert p[1..][j] == p[j + 1];
    }
    forall j | 0 < j < |p[1..]| - 1 ensures p[1..][j] != "" {
      assert p[1..][j] == p[j + 1];
    }
    forall j | 0 <= j < |g[1..]| ensures g[1..][j] != "" && AllSpace(g[1..][j]) {
      assert g[1..][j] == g[j + 1];
    }
  }

  /** In `x + gap + w`, the first space is where `gap` starts and the first
      non-space after it is where `w` starts. */
  lemma SplitCuts(s: string, x: string, gap: string, w: string)
    requires s == x + gap + w
    requires NoSpace(x) && gap != "" && AllSpace(gap)
    requires w != "" ==> !IsSpace(w[0])
    ensures NextSpace(s, 0) == |x| && SkipSpaces(s, |x|) == |x| + |gap|
    ensures s[..|x|] == x && s[|x| + |gap|..] == w
  {
    var a, b := |x|, |x| + |gap|;
    assert forall j :: 0 <= j < a ==> s[j] == x[j];
    assert s[a] == gap[0];
    assert forall j :: a <= j < b ==> s[j] == gap[j - a];
    assert b < |s| ==> s[b] == w[0];
    assert s[..a] == x && s[b..] == w;
  }

  lemma {:induction false} SplitUnique(s: string, p: seq<string>, g: seq<string>)
    requires IsSplitOf(s, p, g)
    ensures p == SplitOnSpaces(s)
    decreases |g|
  {
    if g == [] {
      assert NoSpace(p[0]);
      assert NextSpace(s, 0) == |s|;
      assert p == [s];
    } else {
      SplitTail(s, p, g);
      var w := Weave(p[1..], g[1..]);
      SplitCuts(s, p[0], g[0], w);
      SplitUnique(w, p[1..], g[1..]);
      assert p == [p[0]] + p[1..];
    }
  }


  /** `split(/\s+/)` cuts exactly at the maximal whitespace runs: `p` is
      the split of `s` if and only if some gaps make `p` a split of `s`. */
  lemma SplitOnSpacesExactly(s: string, p: seq<string>)
    ensures p == SplitOnSpaces(s) <==> exists g :: IsSplitOf(s, p, g)
  {
    if p == SplitOnSpaces(s) {
      var g := SplitGaps(s);
    }
    if exists g :: IsSplitOf(s, p, g) {
      var g :| IsSplitOf(s, p, g);
      SplitUnique(s, p, g);
    }
  }

  lemma {:induction false} ConcatEmpty(parts: seq<string>)
    requires Concat(parts) == ""
    ensures forall i :: 0 <= i < |parts| ==> parts[i] == ""
    decreases |parts|
  {
    if parts != [] {
      ConcatEmpty(parts[1..]);
      forall i | 0 <= i < |parts| ensures parts[i] == "" {
        if i > 0 {
          assert parts[i] == parts[1..][i - 1];
        }
      }
    }
  }

  /** A blank string splits into empty pieces only. */
  lemma SplitBlank(s: string)
    requires AllSpace(s)
    ensures forall i :: 0 <= i < |SplitOnSpaces(s)| ==> SplitOnSpaces(s)[i] == ""
  {
    SplitOnSpacesConcat(s);
    SqueezeAllSpace(s);
    ConcatEmpty(SplitOnSpaces(s));
  }

  /** `w` occurs in `t` starting at index `i`. */
  ghost predicate OccursAt(t: string, w: string, i: nat)
  {
    i + |w| <= |t| && t[i..i + |w|] == w
  }

  /** `t.includes(w)`. */
  function Contains(t: string, w: string): (b: bool)
    ensures b <==> exists i: nat :: OccursAt(t, w, i)
    decreases |t|
  {
    if w <= t then
      assert OccursAt(t, w, 0);
      true
    else if t == "" then
      false
    else
      ContainsStep(t, w);
      Contains(t[1..], w)
  }

  lemma ContainsStep(t: string, w: string)
    requires t != "" && !(w <= t)
    ensures (exists i: nat :: OccursAt(t, w, i)) <==> (exists i: nat :: OccursAt(t[1..], w, i))
  {
    if exists i: nat :: OccursAt(t[1..], w, i) {
      var i: nat :| OccursAt(t[1..], w, i);
      assert t[1..][i..i + |w|] == t[i + 1..i + 1 + |w|];
      assert OccursAt(t, w, i + 1);
    }
    assert !OccursAt(t, w, 0);
    if exists i: nat :: OccursAt(t, w, i) {
      var i: nat :| OccursAt(t, w, i);
      assert OccursAt(t[1..], w, i - 1);
    }
  }

  lemma ContainsAt(t: string, w: string, i: nat)
    requires OccursAt(t, w, i)
    ensures Contains(t, w)
  {
  }

  /** A string occurs in any string built around it. */
  lemma ContainsInfix(a: string, w: string, b: string)
    ensures Contains(a + w + b, w)
  {
    assert (a + w + b)[|a|..|a| + |w|] == w;
    ContainsAt(a + w + b, w, |a|);
  }

  /** Containment is transitive. */
  lemma ContainsTrans(t: string, u: string, w: string)
    requires Contains(t, u) && Contains(u, w)
    ensures Contains(t, w)
  {
    var i: nat :| OccursAt(t, u, i);
    var j: nat :| OccursAt(u, w, j);
    forall k | 0 <= k < |w| ensures t[i + j..i + j + |w|][k] == w[k] {
      assert w[k] == u[j..j + |w|][k] == u[j + k];
      assert u[j + k] == t[i..i + |u|][j + k] == t[i + j + k];
    }
    assert t[i + j..i + j + |w|] == w;
    ContainsAt(t, w, i + j);
  }

  /** Containment survives lower-casing both sides. */
  lemma ContainsLower(t: string, w: string)
    requires Contains(t, w)
    ensures Contains(Lower(t), Lower(w))
  {
    var i: nat :| OccursAt(t, w, i);
    assert Lower(t)[i..i + |w|] == Lower(w);
    ContainsAt(Lower(t), Lower(w), i);
  }

  /** `parts.join(sep)`. */
  function Join(parts: seq<string>, sep: string): string
    decreases |parts|
  {
    if parts == [] then ""
    else if |parts| == 1 then parts[0]
    else parts[0] + sep + Join(parts[1..], sep)
  }

  /** The joined string contains every part. */
  lemma {:induction false} JoinContains(parts: seq<string>, sep: string)
    ensures forall i :: 0 <= i < |parts| ==> Contains(Join(parts, sep), parts[i])
    decreases |parts|
  {
    if |parts| == 1 {
      ContainsInfix("", parts[0], "");
      assert "" + parts[0] + "" == parts[0];
    } else if |parts| > 1 {
      var rest := Join(parts[1..], sep);
      var r := Join(parts, sep);
      assert r == parts[0] + sep + rest;
      JoinContains(parts[1..], sep);
      ContainsInfix("", parts[0], sep + rest);
      assert "" + parts[0] + (sep + rest) == r;
      ContainsInfix(parts[0] + sep, rest, "");
      assert parts[0] + sep + rest + "" == r;
      forall i | 1 <= i < |parts| ensures Contains(r, parts[i]) {
        assert parts[i] == parts[1..][i - 1];
        ContainsTrans(r, rest, parts[i]);
      }
    }
  }

  /** No parts join to the empty string, one part to itself. */
  lemma JoinShort(parts: seq<string>, sep: string)
    ensures parts == [] ==> Join(parts, sep) == ""
    ensures |parts| == 1 ==> Join(parts, sep) == parts[0]
  {
  }

  /** Appending a part appends the separator and the part, so the parts
      appear in order with one separator between neighbours. */
  lemma {:induction false} JoinSnoc(xs: seq<string>, y: string, sep: string)
    requires xs != []
    ensures Join(xs + [y], sep) == Join(xs, sep) + sep + y
    decreases |xs|
  {
    var zs := xs + [y];
    assert zs[0] == xs[0] && zs[1..] == xs[1..] + [y];
    if |xs| == 1 {
      assert zs[1..] == [y];
      assert Join(zs[1..], sep) == y;
      assert Join(xs, sep) == xs[0];
    } else {
      JoinSnoc(xs[1..], y, sep);
      assert Join(xs, sep) == xs[0] + sep + Join(xs[1..], sep);
    }
    assert Join(zs, sep) == xs[0] + sep + Join(zs[1..], sep);
  }

  /** Joining is weaving with the separator in every gap. */
  lemma {:induction false} JoinIsWeave(parts: seq<string>, sep: string)
    requires parts != []
    ensures Join(parts, sep) == Weave(parts, seq(|parts| - 1, _ => sep))
    decreases |parts|
  {
    var g := seq(|parts| - 1, _ => sep);
    if |parts| > 1 {
      JoinIsWeave(parts[1..], sep);
      assert g[1..] == seq(|parts[1..]| - 1, _ => sep);
    }
  }

  /** Joining with whitespace and splitting again gives back the parts,
      when only the first and the last part may be empty and no part holds
      whitespace. */
  lemma SplitJoin(parts: seq<string>, sep: string)
    requires parts != []
    requires forall i :: 0 <= i < |parts| ==> NoSpace(parts[i])
    requires forall i :: 0 < i < |parts| - 1 ==> parts[i] != ""
    requires sep != "" && AllSpace(sep)
    ensures SplitOnSpaces(Join(parts, sep)) == parts
  {
    var g := seq(|parts| - 1, _ => sep);
    JoinIsWeave(parts, sep);
    assert IsSplitOf(Join(parts, sep), parts, g);
    SplitUnique(Join(parts, sep), parts, g);
  }

  /** The value of a string of decimal digits. */
  function DigitsValue(s: string): nat
    requires forall i :: 0 <= i < |s| ==> '0' <= s[i] <= '9'
    decreases |s|
  {
    if s == "" then 0 else 10 * DigitsValue(s[..|s| - 1]) + (s[|s| - 1] as int - '0' as int)
  }

  /** `String(n)` for a non-negative integer: its decimal digits, no sign,
      no leading zero. */
  function NatToString(n: nat): (r: string)
    ensures |r| >= 1
    ensures forall i :: 0 <= i < |r| ==> '0' <= r[i] <= '9'
    ensures DigitsValue(r) == n
    ensures |r| > 1 ==> r[0] != '0'
    decreases n
  {
    var d := [('0' as int + n % 10) as char];
    if n < 10 then d
    else
      var r := NatToString(n / 10) + d;
      assert r[..|r| - 1] == NatToString(n / 10);
      r
  }
}
