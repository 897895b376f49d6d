/** The handful of Python string operations the program relies on. */
module Text {

  /** `s.startswith(prefix)`. */
  predicate StartsWith(s: string, prefix: string)
  {
    |prefix| <= |s| && s[..|prefix|] == prefix
  }

  /** `s.endswith(suffix)`. */
  predicate EndsWith(s: string, suffix: string)
  {
    |suffix| <= |s| && s[|s| - |suffix|..] == suffix
  }

  /** `s.split(sep)` for a one-character separator: the pieces between
      separators, never an empty list (`"".split(":") == [""]`). */
  function Split(s: string, sep: char): (parts: seq<string>)
    ensures |parts| >= 1
    decreases |s|
  {
    if |s| == 0 then [""]
    else
      var rest := Split(s[1..], sep);
      if s[0] == sep then [""] + rest
      else [[s[0]] + rest[0]] + rest[1..]
  }

  /** `sep.join(parts)`. */
  function Join(parts: seq<string>, sep: char): string
    requires |parts| >= 1
  {
    if |parts| == 1 then parts[0] else parts[0] + [sep] + Join(parts[1..], sep)
  }

  /** `s.split(sep)[-1]`. */
  function LastPart(s: string, sep: char): string
  {
    var parts := Split(s, sep);
    parts[|parts| - 1]
  }

  /** Splitting loses nothing: joining the pieces again gives back the string. */
  lemma {:induction false} JoinSplit(s: string, sep: char)
    ensures Join(Split(s, sep), sep) == s
    decreases |s|
  {
    if |s| > 0 {
      var rest := Split(s[1..], sep);
      JoinSplit(s[1..], sep);
      if s[0] == sep {
        assert Split(s, sep)[1..] == rest;
        assert s == [s[0]] + s[1..];
      } else {
        var parts := Split(s, sep);
        if |rest| == 1 {
          assert s == [s[0]] + s[1..];
        } else {
          assert parts[1..] == rest[1..];
          assert Join(rest, sep) == rest[0] + [sep] + Join(rest[1..], sep);
          assert s == [s[0]] + s[1..];
        }
      }
    }
  }

  /** No piece of a split contains the separator. */
  lemma {:induction false} SplitPiecesFree(s: string, sep: char)
    ensures forall i :: 0 <= i < |Split(s, sep)| ==> sep !in Split(s, sep)[i]
    decreases |s|
  {
    if |s| > 0 {
      SplitPiecesFree(s[1..], sep);
      var rest := Split(s[1..], sep);
      var parts := Split(s, sep);
      if s[0] == sep {
        assert forall i :: 1 <= i < |parts| ==> parts[i] == rest[i - 1];
      } else {
        assert forall i :: 1 <= i < |parts| ==> parts[i] == rest[i];
        assert parts[0] == [s[0]] + rest[0];
      }
    }
  }

  /** A split yields a single piece exactly when there is no separator. */
  lemma {:induction false} SinglePiece(s: string, sep: char)
    ensures |Split(s, sep)| == 1 <==> sep !in s
    decreases |s|
  {
    if |s| > 0 {
      SinglePiece(s[1..], sep);
      assert s == [s[0]] + s[1..];
    }
  }

  /** Without a separator the split is the string itself. */
  lemma {:induction false} NoSeparatorSplit(s: string, sep: char)
    requires sep !in s
    ensures Split(s, sep) == [s]
    decreases |s|
  {
    if |s| > 0 {
      NoSeparatorSplit(s[1..], sep);
      assert s == [s[0]] + s[1..];
    }
  }

  /** The last piece of a non-empty string, from the last piece of its tail. */
  lemma LastPartStep(s: string, sep: char)
    requires |s| > 0
    ensures sep in s[1..] ==> LastPart(s, sep) == LastPart(s[1..], sep)
    ensures sep !in s[1..] && s[0] == sep ==> LastPart(s, sep) == s[1..]
    ensures sep !in s[1..] && s[0] != sep ==> LastPart(s, sep) == s
  {
    var rest := Split(s[1..], sep);
    SinglePiece(s[1..], sep);
    if sep !in s[1..] {
      NoSeparatorSplit(s[1..], sep);
      assert s == [s[0]] + s[1..];
    }
  }

  /** The part of `s` after its last separator (all of `s` when it has none). */
  function AfterLast(s: string, sep: char): string
    decreases |s|
  {
    if |s| == 0 then ""
    else if sep in s[1..] then AfterLast(s[1..], sep)
    else if s[0] == sep then s[1..]
    else s
  }

  /** `split(sep)[-1]` is the part after the last separator. */
  lemma {:induction false} LastPartIsAfterLast(s: string, sep: char)
    ensures LastPart(s, sep) == AfterLast(s, sep)
    decreases |s|
  {
    if |s| > 0 {
      LastPartStep(s, sep);
      if sep in s[1..] {
        LastPartIsAfterLast(s[1..], sep);
      }
    }
  }

  /** The part after the last separator is a separator-free suffix, all of
      `s` when there is no separator and preceded by one otherwise. */
  lemma {:induction false} AfterLastIsTail(s: string, sep: char)
    ensures EndsWith(s, AfterLast(s, sep))
    ensures sep !in AfterLast(s, sep)
    ensures sep !in s ==> AfterLast(s, sep) == s
    ensures sep in s ==> |AfterLast(s, sep)| < |s| && s[|s| - |AfterLast(s, sep)| - 1] == sep
    decreases |s|
  {
    if |s| > 0 {
      assert s == [s[0]] + s[1..];
      if sep in s[1..] {
        AfterLastIsTail(s[1..], sep);
        var r := AfterLast(s[1..], sep);
        assert s[|s| - |r|..] == s[1..][|s| - 1 - |r|..];
        assert s[|s| - |r| - 1] == s[1..][|s| - 1 - |r| - 1];
      }
    }
  }

  /** The last piece of a split is the part of `s` after its last separator:
      a suffix of `s` free of `sep` that is all of `s` when `s` holds no
      separator, and otherwise starts right after an occurrence of `sep`. */
  lemma LastPartIsTail(s: string, sep: char)
    ensures EndsWith(s, LastPart(s, sep))
    ensures sep !in LastPart(s, sep)
    ensures sep !in s ==> LastPart(s, sep) == s
    ensures sep in s ==> |LastPart(s, sep)| < |s| && s[|s| - |LastPart(s, sep)| - 1] == sep
  {
    LastPartIsAfterLast(s, sep);
    AfterLastIsTail(s, sep);
  }
}
