/**
 * The few JavaScript string and path operations the action relies on:
 * `String.prototype.split` with a one-character separator, `endsWith`,
 * `replace` with a regular expression anchored at the end (`/\.zip$/`),
 * and Node's `path.join`.
 */
module Strings {

  /** `Array.prototype.join`: the parts with `sep` between each two of them. */
  function Join(parts: seq<string>, sep: char): string
    decreases |parts|
  {
    if |parts| == 0 then ""
    else if |parts| == 1 then parts[0]
    else parts[0] + [sep] + Join(parts[1..], sep)
  }

  /**
   * `s.split(sep)`: the maximal runs of `s` between occurrences of `sep`.
   * There is always at least one part (`"".split("/")` is `[""]`) and no part
   * contains the separator; joining the parts back gives `s` (`JoinSplit`).
   */
  function Split(s: string, sep: char): (parts: seq<string>)
    ensures |parts| >= 1
    ensures forall i :: 0 <= i < |parts| ==> sep !in parts[i]
    decreases |s|
  {
    if s == [] then [""]
    else
      var rest := Split(s[1..], sep);
      if s[0] == sep then [""] + rest
      else
        var parts := [[s[0]] + rest[0]] + rest[1..];
        assert parts[1..] == rest[1..];
        parts
  }

  /** Joining the parts of `s.split(sep)` with `sep` gives back `s`. */
  lemma {:induction false} JoinSplit(s: string, sep: char)
    ensures Join(Split(s, sep), sep) == s
    decreases |s|
  {
    if s != [] {
      var rest := Split(s[1..], sep);
      JoinSplit(s[1..], sep);
      if s[0] == sep {
        assert ([""] + rest)[1..] == rest;
        assert s == [sep] + s[1..];
      } else {
        var parts := [[s[0]] + rest[0]] + rest[1..];
        assert parts[1..] == rest[1..];
        if |rest| > 1 {
          assert Join(rest, sep) == rest[0] + [sep] + Join(rest[1..], sep);
        }
        assert s == [s[0]] + s[1..];
      }
    }
  }

  /** A string without the separator is split into itself alone. */
  lemma {:induction false} SplitWithoutSeparator(s: string, sep: char)
    requires sep !in s
    ensures Split(s, sep) == [s]
    decreases |s|
  {
    if s != [] {
      SplitWithoutSeparator(s[1..], sep);
      assert [s[0]] + s[1..] == s;
    }
  }

  /** A leading separator ends an empty first part. */
  lemma SplitSeparatorFirst(t: string, sep: char)
    ensures Split([sep] + t, sep) == [""] + Split(t, sep)
  {
    assert ([sep] + t)[1..] == t;
  }

  /** A leading character other than the separator starts the first part. */
  lemma SplitOtherFirst(c: char, t: string, sep: char)
    requires c != sep
    ensures Split([c] + t, sep) == [[c] + Split(t, sep)[0]] + Split(t, sep)[1..]
  {
    assert ([c] + t)[1..] == t;
  }

  /** Prepending to `l + r` is prepending to `l`. */
  lemma PrependToAppend<T>(x: T, l: seq<T>, r: seq<T>)
    ensures [x] + (l + r) == ([x] + l) + r
  {
  }

  /** Replacing the first element of `l + r` is replacing the first element of `l`. */
  lemma ReplaceFirstOfAppend<T>(x: T, l: seq<T>, r: seq<T>)
    requires |l| >= 1
    ensures (l + r)[0] == l[0]
    ensures [x] + (l + r)[1..] == ([x] + l[1..]) + r
  {
    assert (l + r)[1..] == l[1..] + r;
  }

  /** One step of `SplitAround` for a string that starts with the separator. */
  lemma SplitAroundSeparatorFirst(tail: string, b: string, sep: char)
    requires Split(tail + [sep] + b, sep) == Split(tail, sep) + Split(b, sep)
    ensures Split([sep] + tail + [sep] + b, sep) == Split([sep] + tail, sep) + Split(b, sep)
  {
    var t := tail + [sep] + b;
    assert [sep] + tail + [sep] + b == [sep] + t;
    SplitSeparatorFirst(t, sep);
    SplitSeparatorFirst(tail, sep);
    PrependToAppend("", Split(tail, sep), Split(b, sep));
  }

  /** One step of `SplitAround` for a string that starts with another character. */
  lemma SplitAroundOtherFirst(c: char, tail: string, b: string, sep: char)
    requires c != sep
    requires Split(tail + [sep] + b, sep) == Split(tail, sep) + Split(b, sep)
    ensures Split([c] + tail + [sep] + b, sep) == Split([c] + tail, sep) + Split(b, sep)
  {
    var t := tail + [sep] + b;
    assert [c] + tail + [sep] + b == [c] + t;
    SplitOtherFirst(c, t, sep);
    SplitOtherFirst(c, tail, sep);
    var left := Split(tail, sep);
    ReplaceFirstOfAppend([c] + left[0], left, Split(b, sep));
  }

  /** Splitting at one separator occurrence splits the two sides independently. */
  lemma {:induction false} SplitAround(a: string, b: string, sep: char)
    ensures Split(a + [sep] + b, sep) == Split(a, sep) + Split(b, sep)
    decreases |a|
  {
    if a == [] {
      assert a + [sep] + b == [sep] + b;
      SplitSeparatorFirst(b, sep);
    } else {
      var c, tail := a[0], a[1..];
      assert a == [c] + tail;
      SplitAround(tail, b, sep);
      if c == sep {
        SplitAroundSeparatorFirst(tail, b, sep);
      } else {
        SplitAroundOtherFirst(c, tail, b, sep);
      }
    }
  }

  /** The last element of `s.split(sep)`. */
  function LastSegment(s: string, sep: char): (last: string)
    ensures sep !in last
  {
    var parts := Split(s, sep);
    parts[|parts| - 1]
  }

  /** What follows the last separator is the last segment. */
  lemma LastSegmentAfter(prefix: string, tail: string, sep: char)
    requires sep !in tail
    ensures LastSegment(prefix + [sep] + tail, sep) == tail
  {
    SplitAround(prefix, tail, sep);
    SplitWithoutSeparator(tail, sep);
  }

  /** Joining parts that hold no separator and splitting the result gives the parts back. */
  lemma {:induction false} SplitJoin(parts: seq<string>, sep: char)
    requires |parts| >= 1
    requires forall i :: 0 <= i < |parts| ==> sep !in parts[i]
    ensures Split(Join(parts, sep), sep) == parts
    decreases |parts|
  {
    SplitWithoutSeparator(parts[0], sep);
    if |parts| > 1 {
      SplitJoin(parts[1..], sep);
      SplitAround(parts[0], Join(parts[1..], sep), sep);
      assert parts == [parts[0]] + parts[1..];
    }
  }

  /** The two halves of `x + y` are `x` and `y`. */
  lemma AppendHalves<T>(x: seq<T>, y: seq<T>)
    ensures (x + y)[..|x|] == x && (x + y)[|x|..] == y
  {
  }

  /** Concatenation is associative. */
  lemma AppendAssociative<T>(x: seq<T>, y: seq<T>, z: seq<T>)
    ensures x + y + z == x + (y + z)
  {
  }

  /** `s.startsWith(prefix)`. */
  predicate StartsWith(s: string, prefix: string)
  {
    |prefix| <= |s| && s[..|prefix|] == prefix
  }

  /** `s.endsWith(suffix)`: `s` is something followed by `suffix`. */
  predicate EndsWith(s: string, suffix: string)
    ensures EndsWith(s, suffix) ==> |suffix| <= |s| && s == s[..|s| - |suffix|] + suffix
  {
    |suffix| <= |s|
    && (assert s == s[..|s| - |suffix|] + s[|s| - |suffix|..]; s[|s| - |suffix|..] == suffix)
  }

  /** Whatever is followed by `suffix` ends with it. */
  lemma EndsWithAppend(prefix: string, suffix: string)
    ensures EndsWith(prefix + suffix, suffix)
  {
    assert (prefix + suffix)[|prefix|..] == suffix;
  }

  /** Whatever is followed by `middle + suffix` ends with `suffix`. */
  lemma EndsWithAppendAfter(front: string, middle: string, suffix: string)
    ensures EndsWith(front + (middle + suffix), suffix)
  {
    AppendAssociative(front, middle, suffix);
    EndsWithAppend(front + middle, suffix);
  }

  /** Whether `s` ends with a short `u` is decided by any longer suffix `t` of `s`. */
  lemma EndsWithThrough(s: string, t: string, u: string)
    ensures EndsWith(s, t) && |u| <= |t| ==> (EndsWith(s, u) <==> EndsWith(t, u))
  {
    if EndsWith(s, t) && |u| <= |t| {
      assert s[|s| - |u|..] == s[|s| - |t|..][|t| - |u|..];
    }
  }

  /**
   * `s.replace(/<suffix>$/, '')` for a regular expression that matches the
   * literal `suffix` anchored at the end of the input: the suffix is cut off
   * when it is there, and nothing happens otherwise.
   */
  function StripSuffix(s: string, suffix: string): (r: string)
    ensures EndsWith(s, suffix) ==> r + suffix == s
    ensures !EndsWith(s, suffix) ==> r == s
  {
    if EndsWith(s, suffix) then s[..|s| - |suffix|] else s
  }

  /** Stripping a suffix that was appended gives back what it was appended to. */
  lemma StripAppended(s: string, suffix: string)
    ensures StripSuffix(s + suffix, suffix) == s
  {
    EndsWithAppend(s, suffix);
    AppendHalves(s, suffix);
  }

  /**
   * The segments `path.join` keeps: the non-empty ones, each as often as it
   * occurs (`NonEmptyCounts`), in their order (`NonEmptyAppend`).
   */
  function NonEmpty(segments: seq<string>): (kept: seq<string>)
    ensures forall i :: 0 <= i < |kept| ==> kept[i] != ""
    ensures forall x :: x in kept <==> x in segments && x != ""
  {
    if segments == [] then []
    else if segments[0] == "" then NonEmpty(segments[1..])
    else [segments[0]] + NonEmpty(segments[1..])
  }

  /** Every non-empty segment is kept as often as it occurs, and no empty one. */
  lemma {:induction false} NonEmptyCounts(segments: seq<string>)
    ensures multiset(NonEmpty(segments)) == multiset(segments)["" := 0]
    decreases |segments|
  {
    if segments != [] {
      NonEmptyCounts(segments[1..]);
      assert segments == [segments[0]] + segments[1..];
    }
  }

  /** Dropping empty segments keeps the order: it distributes over concatenation. */
  lemma {:induction false} NonEmptyAppend(a: seq<string>, b: seq<string>)
    ensures NonEmpty(a + b) == NonEmpty(a) + NonEmpty(b)
    decreases |a|
  {
    if a != [] {
      assert (a + b)[1..] == a[1..] + b;
      NonEmptyAppend(a[1..], b);
    } else {
      assert a + b == b;
    }
  }

  /**
   * Node's `path.join` with the runner's separator, on segments that are
   * already normalised: the non-empty segments joined by `sep`, or `.` when
   * there are none.
   */
  function PathJoin(segments: seq<string>, sep: char): (joined: string)
    ensures NonEmpty(segments) == [] ==> joined == "."
  {
    var kept := NonEmpty(segments);
    if kept == [] then "." else Join(kept, sep)
  }

  /**
   * When no segment holds the separator, splitting the joined path at it
   * gives back exactly the non-empty segments.
   */
  lemma SplitPathJoin(segments: seq<string>, sep: char)
    requires NonEmpty(segments) != []
    requires forall i :: 0 <= i < |segments| ==> sep !in segments[i]
    ensures Split(PathJoin(segments, sep), sep) == NonEmpty(segments)
  {
    var kept := NonEmpty(segments);
    assert forall i :: 0 <= i < |kept| ==> kept[i] in segments;
    SplitJoin(kept, sep);
  }

  /** A single non-empty segment is kept. */
  lemma NonEmptySingle(a: string)
    requires a != ""
    ensures NonEmpty([a]) == [a]
  {
    assert [a][1..] == [];
  }

  /** Three non-empty segments are all kept. */
  lemma NonEmptyThree(a: string, b: string, c: string)
    requires a != "" && b != "" && c != ""
    ensures NonEmpty([a, b, c]) == [a, b, c]
  {
    NonEmptySingle(a);
    NonEmptySingle(b);
    NonEmptySingle(c);
    NonEmptyAppend([a], [b]);
    assert [a] + [b] == [a, b];
    NonEmptyAppend([a, b], [c]);
    assert [a, b] + [c] == [a, b, c];
  }

  /** Joining three non-empty segments puts one separator between each two. */
  lemma PathJoinThree(a: string, b: string, c: string, sep: char)
    requires a != "" && b != "" && c != ""
    ensures PathJoin([a, b, c], sep) == a + [sep] + b + [sep] + c
  {
    NonEmptyThree(a, b, c);
    assert [a, b, c][1..] == [b, c] && [b, c][1..] == [c];
    assert Join([b, c], sep) == b + [sep] + c;
    assert Join([a, b, c], sep) == a + [sep] + (b + [sep] + c);
  }
}
