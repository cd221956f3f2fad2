/** String helpers: Python's `str.join`, substring search, and the ASCII-only
    case folding SQLite's `LIKE` applies. */
module Text {

  /** Where part `i` starts in `sep.join(parts)`: the lengths of the parts
      before it, each followed by one separator. */
  function JoinOffset(sep: string, parts: seq<string>, i: nat): nat
    requires i <= |parts|
  {
    if i == 0 then 0 else |parts[0]| + |sep| + JoinOffset(sep, parts[1..], i - 1)
  }

  /** `sep.join(parts)`: as long as the parts with one separator after each,
      less the last separator. */
  function Join(sep: string, parts: seq<string>): (r: string)
    ensures parts == [] ==> r == ""
    ensures parts != [] ==> |r| + |sep| == JoinOffset(sep, parts, |parts|)
  {
    if |parts| == 0 then ""
    else if |parts| == 1 then parts[0]
    else parts[0] + sep + Join(sep, parts[1..])
  }

  /** An occurrence stays an occurrence behind a prefix. */
  lemma OccursBehind(prefix: string, hay: string, needle: string, k: int)
    requires OccursAt(hay, needle, k)
    ensures OccursAt(prefix + hay, needle, |prefix| + k)
  {
    assert (prefix + hay)[|prefix| + k..|prefix| + k + |needle|] == hay[k..k + |needle|];
  }

  /** Part `i` of `sep.join(parts)` sits at its offset. */
  lemma {:induction false} JoinPartAt(sep: string, parts: seq<string>, i: nat)
    requires i < |parts|
    ensures OccursAt(Join(sep, parts), parts[i], JoinOffset(sep, parts, i))
  {
    if |parts| == 1 {
      assert Join(sep, parts)[0..|parts[0]|] == parts[0];
    } else {
      var rest := parts[1..];
      var head := parts[0] + sep;
      assert Join(sep, parts) == head + Join(sep, rest);
      if i == 0 {
        assert Join(sep, parts)[0..|parts[0]|] == parts[0];
      } else {
        JoinPartAt(sep, rest, i - 1);
        OccursBehind(head, Join(sep, rest), rest[i - 1], JoinOffset(sep, rest, i - 1));
      }
    }
  }

  /** A separator follows every part but the last. */
  lemma {:induction false} JoinSeparatorAt(sep: string, parts: seq<string>, i: nat)
    requires i + 1 < |parts|
    ensures OccursAt(Join(sep, parts), sep, JoinOffset(sep, parts, i) + |parts[i]|)
  {
    var rest := parts[1..];
    var head := parts[0] + sep;
    assert Join(sep, parts) == head + Join(sep, rest);
    if i == 0 {
      assert Join(sep, parts)[|parts[0]|..|parts[0]| + |sep|] == sep;
    } else {
      JoinSeparatorAt(sep, rest, i - 1);
      OccursBehind(head, Join(sep, rest), sep, JoinOffset(sep, rest, i - 1) + |rest[i - 1]|);
    }
  }

  /** `s` is laid out as `sep.join(parts)`: each part at its offset, a separator
      right after every part but the last, and nothing after the last part. */
  predicate JoinedAs(s: string, sep: string, parts: seq<string>)
  {
    && (forall i :: 0 <= i < |parts| ==> OccursAt(s, parts[i], JoinOffset(sep, parts, i)))
    && (forall i :: 0 <= i < |parts| - 1 ==> OccursAt(s, sep, JoinOffset(sep, parts, i) + |parts[i]|))
    && (if parts == [] then s == "" else |s| + |sep| == JoinOffset(sep, parts, |parts|))
  }

  /** The layout of `sep.join(parts)`. */
  lemma JoinLayout(sep: string, parts: seq<string>)
    ensures JoinedAs(Join(sep, parts), sep, parts)
  {
    forall i | 0 <= i < |parts| {
      JoinPartAt(sep, parts, i);
    }
    forall i | 0 <= i < |parts| - 1 {
      JoinSeparatorAt(sep, parts, i);
    }
  }

  /** Joining non-empty parts is empty exactly when there are no parts, and
      otherwise starts with the first part. */
  lemma {:induction false} JoinNonEmpty(sep: string, parts: seq<string>)
    requires forall i :: 0 <= i < |parts| ==> parts[i] != ""
    ensures Join(sep, parts) == "" <==> parts == []
    ensures parts != [] ==> parts[0] <= Join(sep, parts)
  {
    if |parts| > 1 {
      assert Join(sep, parts) == parts[0] + (sep + Join(sep, parts[1..]));
    }
  }

  /** `needle` occurs in `hay` starting at offset `i`. */
  predicate OccursAt(hay: string, needle: string, i: int)
  {
    0 <= i && i + |needle| <= |hay| && hay[i..i + |needle|] == needle
  }

  /** Python's `needle in hay` on strings. */
  function Contains(hay: string, needle: string): bool
    decreases |hay|
  {
    if |needle| > |hay| then false
    else if hay[..|needle|] == needle then true
    else Contains(hay[1..], needle)
  }

  lemma {:induction false} ContainsCorrect(hay: string, needle: string)
    ensures Contains(hay, needle) <==> exists i :: OccursAt(hay, needle, i)
    decreases |hay|
  {
    if |needle| > |hay| {
    } else if hay[..|needle|] == needle {
      assert OccursAt(hay, needle, 0);
    } else {
      ContainsCorrect(hay[1..], needle);
      if exists i :: OccursAt(hay, needle, i) {
        var i :| OccursAt(hay, needle, i);
        assert i != 0;
        assert hay[1..][i - 1..i - 1 + |needle|] == hay[i..i + |needle|];
        assert OccursAt(hay[1..], needle, i - 1);
      }
      if exists i :: OccursAt(hay[1..], needle, i) {
        var i :| OccursAt(hay[1..], needle, i);
        assert hay[1..][i..i + |needle|] == hay[i + 1..i + 1 + |needle|];
        assert OccursAt(hay, needle, i + 1);
      }
    }
  }

  /** The empty string occurs in every string. */
  lemma ContainsEmpty(hay: string)
    ensures Contains(hay, "")
  {
    ContainsCorrect(hay, "");
    assert OccursAt(hay, "", 0);
  }

  /** ASCII lower-casing of one character: SQLite's default `LIKE` folds only A-Z. */
  function LowerChar(c: char): char
  {
    if 'A' <= c <= 'Z' then (c as int + 32) as char else c
  }

  function Lower(s: string): (r: string)
    ensures |r| == |s|
    ensures forall i :: 0 <= i < |s| ==> r[i] == LowerChar(s[i])
  {
    if s == [] then [] else [LowerChar(s[0])] + Lower(s[1..])
  }

  /** Folding twice folds once. */
  lemma LowerIdempotent(s: string)
    ensures Lower(Lower(s)) == Lower(s)
  {
  }
}
