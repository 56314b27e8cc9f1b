/** The two functions of Go's `strings` package the client relies on:
    `strings.Split` with a one-character separator and `strings.Join`. */
module GoStrings {
  import opened Wrappers

  /** Number of occurrences of `c` in `s`. */
  function Count(s: string, c: char): nat
  {
    if |s| == 0 then 0
    else (if s[0] == c then 1 else 0) + Count(s[1..], c)
  }

  /** `strings.Join(parts, sep)`: the parts glued together with `sep` between
      neighbours; no parts give the empty string. */
  function Join(parts: seq<string>, sep: string): string
  {
    if |parts| == 0 then ""
    else if |parts| == 1 then parts[0]
    else parts[0] + sep + Join(parts[1..], sep)
  }

  /** Joining two parts puts the separator between them once. */
  lemma JoinPair(a: string, b: string, sep: string)
    ensures Join([a, b], sep) == a + sep + b
  {
  }

  /** `strings.Split(s, [sep])`: the maximal pieces of `s` between separators,
      empty pieces included; the empty string gives one empty piece. */
  function Split(s: string, sep: char): (pieces: seq<string>)
    ensures |pieces| == Count(s, sep) + 1
    ensures forall k :: 0 <= k < |pieces| ==> sep !in pieces[k]
    ensures Join(pieces, [sep]) == s
    decreases |s|
  {
    if |s| == 0 then [""]
    else
      var rest := Split(s[1..], sep);
      if s[0] == sep then
        assert ([""] + rest)[1..] == rest;
        [""] + rest
      else
        var first := [s[0]] + rest[0];
        assert ([first] + rest[1..])[1..] == rest[1..];
        assert s == [s[0]] + s[1..];
        [first] + rest[1..]
  }

  /** A string without the separator is a single piece. */
  lemma SplitNoSeparator(p: string, sep: char)
    requires sep !in p
    ensures Split(p, sep) == [p]
  {
  }

  /** A separator-free piece followed by the separator splits off as the
      first piece. */
  lemma {:induction false} SplitCons(p: string, sep: char, t: string)
    requires sep !in p
    ensures Split(p + [sep] + t, sep) == [p] + Split(t, sep)
    decreases |p|
  {
    var s := p + [sep] + t;
    if |p| == 0 {
      assert s == [sep] + t;
      assert s[1..] == t;
    } else {
      assert s[1..] == p[1..] + [sep] + t;
      assert sep !in p[1..];
      SplitCons(p[1..], sep, t);
      assert [p[0]] + p[1..] == p;
    }
  }

  /** Splitting undoes joining, for at least one part and parts that do not
      contain the separator; with `Split`'s own contract this makes the two
      functions inverse to each other. */
  lemma {:induction false} SplitJoin(parts: seq<string>, sep: char)
    requires |parts| >= 1
    requires forall k :: 0 <= k < |parts| ==> sep !in parts[k]
    ensures Split(Join(parts, [sep]), sep) == parts
    decreases |parts|
  {
    if |parts| == 1 {
      SplitNoSeparator(parts[0], sep);
    } else {
      var rest := parts[1..];
      assert forall k :: 0 <= k < |rest| ==> sep !in rest[k] by {
        forall k | 0 <= k < |rest| ensures sep !in rest[k] {
          assert rest[k] == parts[k + 1];
        }
      }
      SplitJoin(rest, sep);
      assert Join(parts, [sep]) == parts[0] + [sep] + Join(rest, [sep]);
      SplitCons(parts[0], sep, Join(rest, [sep]));
      assert [parts[0]] + rest == parts;
    }
  }

  /** Position of the first occurrence of `c` in `s`, if any. */
  function IndexOf(s: string, c: char): (r: Option<nat>)
    ensures r.None? <==> c !in s
    ensures r.Some? ==> r.value < |s| && s[r.value] == c && c !in s[..r.value]
  {
    if |s| == 0 then None
    else if s[0] == c then Some(0)
    else
      match IndexOf(s[1..], c)
      case None => None
      case Some(i) =>
        assert s[..i + 1] == [s[0]] + s[1..][..i];
        Some(i + 1)
  }

  /** The first `c` of `p + [c] + t` is the one after `p` when `p` has none. */
  lemma IndexOfAfter(p: string, c: char, t: string)
    requires c !in p
    ensures IndexOf(p + [c] + t, c) == Some(|p|)
  {
    var s := p + [c] + t;
    assert s[|p|] == c;
    assert s[..|p|] == p;
  }
}
