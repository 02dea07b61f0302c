/** The few JavaScript string behaviours the rest of the model depends on:
    template interpolation of a property that may be absent, truthiness,
    `String.prototype.includes`, `indexOf`, `replace` with a string pattern,
    `split` on one character, `Array.prototype.join` and `toUpperCase`. */
module JsText {
  import opened Wrappers

  /** A string-valued property that may be absent. */
  type Field = Option<string>

  /** What a template literal `${x}` produces: an absent property prints as "undefined". */
  function Show(f: Field): string
  {
    match f
    case None => "undefined"
    case Some(s) => s
  }

  /** JavaScript truthiness of a string property: present and not empty. */
  predicate Truthy(f: Field)
  {
    f.Some? && f.value != ""
  }

  /** The string form of any plain object: `${obj}`. */
  const ObjectString: string := "[object Object]"

  /** `p` occurs in `s` starting at position `i`. */
  predicate OccursAt(s: string, p: string, i: nat)
  {
    i + |p| <= |s| && s[i..i + |p|] == p
  }

  /** `s.indexOf(p)`: the first position where `p` occurs, if any. */
  function IndexOf(s: string, p: string): (r: Option<nat>)
    ensures r.Some? ==> OccursAt(s, p, r.value)
    ensures r.Some? ==> forall j :: 0 <= j < r.value ==> !OccursAt(s, p, j)
    ensures r.None? ==> forall j: nat :: !OccursAt(s, p, j)
    decreases |s|
  {
    if p <= s then
      assert s[0..|p|] == p;
      Some(0)
    else if s == [] then
      None
    else
      assert !OccursAt(s, p, 0);
      match IndexOf(s[1..], p)
      case None =>
        assert forall j: nat :: !OccursAt(s, p, j) by {
          forall j: nat | j > 0 ensures !OccursAt(s, p, j) {
            ShiftOccurrence(s, p, j - 1);
          }
        }
        None
      case Some(k) =>
        ShiftOccurrence(s, p, k);
        assert forall j :: 0 <= j < k + 1 ==> !OccursAt(s, p, j) by {
          forall j | 0 < j < k + 1 ensures !OccursAt(s, p, j) {
            ShiftOccurrence(s, p, j - 1);
          }
        }
        Some(k + 1)
  }

  /** An occurrence in `s` at position `k + 1` is an occurrence in `s[1..]` at `k`. */
  lemma ShiftOccurrence(s: string, p: string, k: nat)
    requires s != []
    ensures OccursAt(s, p, k + 1) <==> OccursAt(s[1..], p, k)
  {
    if k + 1 + |p| <= |s| {
      assert s[k + 1..k + 1 + |p|] == s[1..][k..k + |p|];
    }
  }

  /** `s.includes(p)`. */
  predicate Includes(s: string, p: string)
  {
    IndexOf(s, p).Some?
  }

  /** `s.replace(p, r)` with a string pattern: only the first occurrence is
      replaced, by `r` with its `$` patterns expanded. */
  function ReplaceFirst(s: string, p: string, r: string): string
  {
    match IndexOf(s, p)
    case None => s
    case Some(i) => s[..i] + Expand(r, p, s[..i], s[i + |p|..]) + s[i + |p|..]
  }

  /** The replacement text of a match (GetSubstitution in ECMA-262, for a string
      pattern, which has no capture groups): `$$` is "$", `$&` the match, `` $` ``
      the text before it, `$'` the text after it; any other `$` is kept as it is. */
  function Expand(r: string, matched: string, before: string, after: string): string
    decreases |r|
  {
    if r == [] then []
    else if r[0] == '$' && |r| >= 2 && r[1] in "$&`'" then
      (if r[1] == '$' then "$" else if r[1] == '&' then matched else if r[1] == '`' then before else after)
      + Expand(r[2..], matched, before, after)
    else [r[0]] + Expand(r[1..], matched, before, after)
  }

  /** A replacement without `$` is inserted as it is. */
  lemma {:induction false} ExpandPlain(r: string, matched: string, before: string, after: string)
    requires '$' !in r
    ensures Expand(r, matched, before, after) == r
    decreases |r|
  {
    if r != [] {
      assert '$' !in r[1..] by { assert forall k | 0 <= k < |r[1..]| :: r[1..][k] == r[k + 1]; }
      ExpandPlain(r[1..], matched, before, after);
    }
  }

  /** Replacing the first occurrence splices the expanded replacement exactly
      where `p` first occurs; a replacement without `$` is spliced as it is. */
  lemma ReplaceFirstAt(s: string, p: string, r: string, i: nat)
    requires OccursAt(s, p, i)
    requires forall j :: 0 <= j < i ==> !OccursAt(s, p, j)
    ensures ReplaceFirst(s, p, r) == s[..i] + Expand(r, p, s[..i], s[i + |p|..]) + s[i + |p|..]
    ensures '$' !in r ==> ReplaceFirst(s, p, r) == s[..i] + r + s[i + |p|..]
  {
    var k := IndexOf(s, p);
    assert k.Some?;
    if '$' !in r {
      ExpandPlain(r, p, s[..i], s[i + |p|..]);
    }
  }

  /** "$&", "$$" and a lone "$" expand to the match, "$" and "$". */
  lemma ExpandShort(matched: string, before: string, after: string)
    ensures Expand("$&", matched, before, after) == matched
    ensures Expand("$$", matched, before, after) == "$"
    ensures Expand("$", matched, before, after) == "$"
  {
    assert "$&"[2..] == [] && "$$"[2..] == [] && "$"[1..] == [];
    assert Expand("$&", matched, before, after) == matched + Expand([], matched, before, after);
    assert Expand("$$", matched, before, after) == "$" + Expand([], matched, before, after);
  }

  /** Because of the `$` patterns, replacing a match by "$&" leaves the string as
      it was, and "$$" puts in a single "$". */
  lemma DollarPatterns(s: string, p: string)
    ensures ReplaceFirst(s, p, "$&") == s
    ensures ReplaceFirst(s, p, "$$") == ReplaceFirst(s, p, "$")
  {
    match IndexOf(s, p)
    case None =>
    case Some(i) =>
      ExpandShort(p, s[..i], s[i + |p|..]);
      assert s[i..i + |p|] == p;
      assert s == s[..i] + p + s[i + |p|..];
  }

  /** `s.replace(c, "")` for one character `c`: the first `c` is cut out and the
      rest is kept in order; a string without `c` is unchanged. */
  lemma ReplaceFirstChar(s: string, c: char)
    ensures c in s ==> ReplaceFirst(s, [c], "") == s[..CharIndex(s, c)] + s[CharIndex(s, c) + 1..]
    ensures c !in s ==> ReplaceFirst(s, [c], "") == s
  {
    if c in s {
      var i := CharIndex(s, c);
      assert OccursAt(s, [c], i);
      forall j | 0 <= j < i ensures !OccursAt(s, [c], j) {
        assert s[j] in s[..i];
      }
      ReplaceFirstAt(s, [c], "", i);
    } else {
      FoundCharIsIn(s, c);
    }
  }

  /** A character `indexOf` finds is in the string. */
  lemma FoundCharIsIn(s: string, c: char)
    ensures IndexOf(s, [c]).Some? ==> c in s
  {
    var k := IndexOf(s, [c]);
    if k.Some? {
      assert s[k.value..k.value + 1] == [c];
      assert s[k.value] == c;
    }
  }

  /** Cutting out the first `c` takes one `c` away, when there is one, and
      nothing else. */
  lemma RemoveFirstCount(s: string, c: char)
    ensures multiset(ReplaceFirst(s, [c], "")) == multiset(s) - multiset{c}
  {
    ReplaceFirstChar(s, c);
    if c in s {
      var i := CharIndex(s, c);
      assert s == s[..i] + [c] + s[i + 1..];
      assert multiset(s) == multiset(s[..i]) + multiset{c} + multiset(s[i + 1..]);
    } else {
      assert multiset(s)[c] == 0;
    }
  }

  /** The first position of character `c` in `s`. */
  function CharIndex(s: string, c: char): (i: nat)
    requires c in s
    ensures i < |s| && s[i] == c && c !in s[..i]
  {
    if s[0] == c then 0 else CharIndex(s[1..], c) + 1
  }

  /** `s.split(c)` for a one-character separator: at least one piece, none containing `c`. */
  function Split(s: string, c: char): (parts: seq<string>)
    ensures |parts| >= 1
    ensures forall k :: 0 <= k < |parts| ==> c !in parts[k]
    decreases |s|
  {
    if c in s then
      var i := CharIndex(s, c);
      [s[..i]] + Split(s[i + 1..], c)
    else
      [s]
  }

  /** `parts.join(sep)`. */
  function Join(parts: seq<string>, sep: string): string
  {
    if parts == [] then ""
    else if |parts| == 1 then parts[0]
    else parts[0] + sep + Join(parts[1..], sep)
  }

  /** The string built by appending `f(x)` for each `x` of `xs`, in order: the
      `str += f(x)` loop (or `xs.map`) every renderer uses. */
  function Accumulate<T>(xs: seq<T>, f: T -> string): string
  {
    if xs == [] then "" else Accumulate(xs[..|xs| - 1], f) + f(xs[|xs| - 1])
  }

  /** Accumulating over `a + b` is accumulating over `a`, then over `b`. */
  lemma {:induction false} AccumulateAppend<T>(a: seq<T>, b: seq<T>, f: T -> string)
    ensures Accumulate(a + b, f) == Accumulate(a, f) + Accumulate(b, f)
    decreases |b|
  {
    if b == [] {
      assert a + b == a;
    } else {
      var b' := b[..|b| - 1];
      assert (a + b)[..|a + b| - 1] == a + b';
      assert (a + b)[|a + b| - 1] == b[|b| - 1];
      AccumulateAppend(a, b', f);
    }
  }

  /** Accumulating over one element gives that element's piece. */
  lemma AccumulateOne<T>(x: T, f: T -> string)
    ensures Accumulate([x], f) == f(x)
  {
    assert [x][..0] == [];
    assert "" + f(x) == f(x);
  }

  /** `c.toUpperCase()` for ASCII letters. */
  function UpperChar(c: char): char
  {
    if 'a' <= c <= 'z' then (c as int - 32) as char else c
  }

  /** `s.toUpperCase()` for ASCII text. */
  function Upper(s: string): (u: string)
    ensures |u| == |s|
    ensures forall i :: 0 <= i < |s| ==> u[i] == UpperChar(s[i])
  {
    if s == [] then [] else [UpperChar(s[0])] + Upper(s[1..])
  }

  /** Upper-casing twice is upper-casing once. */
  lemma UpperIdempotent(s: string)
    ensures Upper(Upper(s)) == Upper(s)
  {
    assert forall i | 0 <= i < |s| :: UpperChar(UpperChar(s[i])) == UpperChar(s[i]);
  }
}
