/** The part of Python's `str` that the constructs rely on: `s.split(sep)` with a
    one-character separator, and the two segments the constructs pick out of it,
    `s.split(sep)[0]` and `s.split(sep)[-1]`. */
module PyStr {

  /** Python's `s.split(sep)` for a one-character `sep`: the maximal runs of
      characters other than `sep`, in order, including empty runs. It never
      returns an empty list: `"".split(".") == [""]`. */
  function Split(s: string, sep: char): (parts: seq<string>)
    ensures |parts| >= 1
    ensures forall i :: 0 <= i < |parts| ==> sep !in parts[i]
    decreases |s|
  {
    if s == [] then [""]
    else
      var rest := Split(s[1..], sep);
      if s[0] == sep then [""] + rest
      else [[s[0]] + rest[0]] + rest[1..]
  }

  /** Python's `sep.join(parts)`. */
  function Join(parts: seq<string>, sep: char): string
  {
    if |parts| == 0 then ""
    else if |parts| == 1 then parts[0]
    else parts[0] + [sep] + Join(parts[1..], sep)
  }

  /** Splitting loses nothing: joining the pieces with the separator gives back the string. */
  lemma {:induction false} JoinSplit(s: string, sep: char)
    ensures Join(Split(s, sep), sep) == s
    decreases |s|
  {
    if s != [] {
      var rest := Split(s[1..], sep);
      JoinSplit(s[1..], sep);
      if s[0] == sep {
        assert Split(s, sep) == [""] + rest;
        assert ([""] + rest)[1..] == rest;
      } else {
        var parts := Split(s, sep);
        assert parts == [[s[0]] + rest[0]] + rest[1..];
        if |rest| == 1 {
          assert Join(parts, sep) == [s[0]] + rest[0];
        } else {
          assert parts[1..] == rest[1..];
          assert Join(rest, sep) == rest[0] + [sep] + Join(rest[1..], sep);
          assert Join(parts, sep) == [s[0]] + rest[0] + [sep] + Join(rest[1..], sep);
        }
      }
    }
  }

  /** Joining never merges pieces: splitting a join of separator-free pieces gives the pieces back. */
  lemma {:induction false} SplitJoin(parts: seq<string>, sep: char)
    requires |parts| >= 1
    requires forall i :: 0 <= i < |parts| ==> sep !in parts[i]
    ensures Split(Join(parts, sep), sep) == parts
    decreases |parts|, |parts[0]|
  {
    var p := parts[0];
    if p == [] {
      if |parts| > 1 {
        var tail := Join(parts[1..], sep);
        assert Join(parts, sep) == [sep] + tail;
        assert ([sep] + tail)[1..] == tail;
        SplitJoin(parts[1..], sep);
        assert [""] + parts[1..] == parts;
      }
    } else {
      var shorter := [p[1..]] + parts[1..];
      assert shorter[1..] == parts[1..];
      assert forall i :: 0 < i < |shorter| ==> shorter[i] == parts[i];
      assert sep !in p[1..] by {
        assert forall k :: 0 <= k < |p[1..]| ==> p[1..][k] == p[k + 1];
      }
      SplitJoin(shorter, sep);
      var s := Join(parts, sep);
      if |parts| == 1 {
        assert s == [p[0]] + p[1..];
        assert s[1..] == Join(shorter, sep);
      } else {
        assert s == [p[0]] + (p[1..] + [sep] + Join(parts[1..], sep));
        assert s[1..] == Join(shorter, sep);
      }
      assert s[0] == p[0] != sep;
      assert [p[0]] + p[1..] == p;
      assert [p] + parts[1..] == parts;
    }
  }

  /** Appending a separator to a string starts a new, empty last piece. */
  lemma {:induction false} SplitAppendSeparator(s: string, sep: char)
    ensures Split(s + [sep], sep) == Split(s, sep) + [""]
    decreases |s|
  {
    if s == [] {
      assert [sep][1..] == [];
      assert s + [sep] == [sep];
    } else {
      var a, t := s[0], s[1..];
      assert (s + [sep])[0] == a && (s + [sep])[1..] == t + [sep];
      SplitAppendSeparator(t, sep);
      var rest := Split(t, sep);
      if a != sep {
        assert (rest + [""])[0] == rest[0] && (rest + [""])[1..] == rest[1..] + [""];
      }
    }
  }

  /** `parts` with `c` appended to its last piece. */
  function ExtendLast(parts: seq<string>, c: char): (r: seq<string>)
    requires |parts| >= 1
    ensures |r| == |parts|
  {
    parts[..|parts| - 1] + [parts[|parts| - 1] + [c]]
  }

  lemma ExtendLastBehindEmpty(rest: seq<string>, c: char)
    requires |rest| >= 1
    ensures ExtendLast([""] + rest, c) == [""] + ExtendLast(rest, c)
  {
    var m := |rest|;
    assert ([""] + rest)[..m] == [""] + rest[..m - 1];
  }

  lemma ExtendLastAfterMerge(a: char, rest: seq<string>, c: char)
    requires |rest| >= 1
    ensures var rest' := ExtendLast(rest, c);
      ExtendLast([[a] + rest[0]] + rest[1..], c) == [[a] + rest'[0]] + rest'[1..]
  {
    var m := |rest|;
    var rest' := ExtendLast(rest, c);
    if m == 1 {
      assert rest' == [rest[0] + [c]];
      assert [a] + (rest[0] + [c]) == ([a] + rest[0]) + [c];
    } else {
      assert rest'[0] == rest[0];
      assert rest'[1..] == rest[1..m - 1] + [rest[m - 1] + [c]];
      assert ([[a] + rest[0]] + rest[1..])[..m - 1] == [[a] + rest[0]] + rest[1..m - 1];
    }
  }

  /** Appending any other character to a string extends its last piece. */
  lemma {:induction false} SplitAppendOther(s: string, c: char, sep: char)
    requires c != sep
    ensures Split(s + [c], sep) == ExtendLast(Split(s, sep), c)
    decreases |s|
  {
    if s == [] {
      assert [c][1..] == [];
      assert s + [c] == [c];
      assert Split([c], sep) == [[c] + ""];
      assert [c] + "" == "" + [c];
    } else {
      var a, t := s[0], s[1..];
      assert (s + [c])[0] == a && (s + [c])[1..] == t + [c];
      SplitAppendOther(t, c, sep);
      var rest := Split(t, sep);
      if a == sep {
        assert Split(s, sep) == [""] + rest;
        ExtendLastBehindEmpty(rest, c);
      } else {
        assert Split(s, sep) == [[a] + rest[0]] + rest[1..];
        ExtendLastAfterMerge(a, rest, c);
      }
    }
  }

  /** Python's `s.split(sep)[0]`: the text before the first `sep`. */
  function FirstSegment(s: string, sep: char): (r: string)
    ensures |r| <= |s| && r == s[..|r|]
    ensures sep !in r
    ensures |r| < |s| ==> s[|r|] == sep
  {
    if s == [] || s[0] == sep then ""
    else [s[0]] + FirstSegment(s[1..], sep)
  }

  /** Python's `s.split(sep)[-1]`: the text after the last `sep`. */
  function LastSegment(s: string, sep: char): (r: string)
    ensures |r| <= |s| && r == s[|s| - |r|..]
    ensures sep !in r
    ensures |r| < |s| ==> s[|s| - |r| - 1] == sep
  {
    if s == [] || s[|s| - 1] == sep then ""
    else LastSegment(s[..|s| - 1], sep) + [s[|s| - 1]]
  }

  lemma {:induction false} FirstSegmentIsSplitHead(s: string, sep: char)
    ensures FirstSegment(s, sep) == Split(s, sep)[0]
    decreases |s|
  {
    if s != [] && s[0] != sep {
      FirstSegmentIsSplitHead(s[1..], sep);
    }
  }

  lemma {:induction false} LastSegmentIsSplitLast(s: string, sep: char)
    ensures var parts := Split(s, sep); LastSegment(s, sep) == parts[|parts| - 1]
    decreases |s|
  {
    if s != [] {
      var init := s[..|s| - 1];
      assert init + [s[|s| - 1]] == s;
      if s[|s| - 1] == sep {
        SplitAppendSeparator(init, sep);
      } else {
        SplitAppendOther(init, s[|s| - 1], sep);
      }
      LastSegmentIsSplitLast(init, sep);
    }
  }

  /** Without a separator in it, a string is its own only piece. */
  lemma {:induction false} SplitWithoutSeparator(s: string, sep: char)
    requires sep !in s
    ensures Split(s, sep) == [s]
    decreases |s|
  {
    if s != [] {
      assert s[0] != sep;
      assert sep !in s[1..] by {
        assert forall k :: 0 <= k < |s[1..]| ==> s[1..][k] == s[k + 1];
      }
      SplitWithoutSeparator(s[1..], sep);
      assert [s[0]] + s[1..] == s;
    }
  }

  /** Without a separator in it, both segments are the whole string. */
  lemma SegmentsWithoutSeparator(s: string, sep: char)
    requires sep !in s
    ensures FirstSegment(s, sep) == s && LastSegment(s, sep) == s
  {
  }
}
