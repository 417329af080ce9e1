/** Local JSON Pointer fragments (`#/a/b~1c`), as `resolve_ref` reads them.

    The fragment is split on `/` with Python's `str.split`, the leading `#`
    piece is dropped, and each remaining segment is unescaped by replacing
    `~1` with `/` and then `~0` with `~`, the order section 4 of RFC 6901
    prescribes.
 */
module Pointer {

  /** Python `s.split(sep)`: `n` separators give `n + 1` pieces. */
  function Split(s: string, sep: char): (parts: seq<string>)
    ensures |parts| >= 1
    ensures |parts| == multiset(s)[sep] + 1
    ensures forall i :: 0 <= i < |parts| ==> sep !in parts[i]
  {
    if s == [] then [""]
    else
      var rest := Split(s[1..], sep);
      assert s == [s[0]] + s[1..];
      if s[0] == sep then [""] + rest else [[s[0]] + rest[0]] + rest[1..]
  }

  /** Python `sep.join(parts)`. */
  function Join(parts: seq<string>, sep: char): string
    requires |parts| >= 1
  {
    if |parts| == 1 then parts[0] else parts[0] + [sep] + Join(parts[1..], sep)
  }

  /** Python `s.replace(pat, rep)`: scans left to right and replaces
      non-overlapping occurrences. */
  function Replace(s: string, pat: string, rep: string): string
    requires |pat| > 0
    decreases |s|
  {
    if |s| < |pat| then s
    else if s[..|pat|] == pat then rep + Replace(s[|pat|..], pat, rep)
    else [s[0]] + Replace(s[1..], pat, rep)
  }

  function DecodeSegment(seg: string): string {
    Replace(Replace(seg, "~1", "/"), "~0", "~")
  }

  function EscapeChar(c: char): string {
    if c == '~' then "~0" else if c == '/' then "~1" else [c]
  }

  /** The escaping of section 3 of RFC 6901: `~` as `~0`, `/` as `~1`. */
  function EscapeSegment(seg: string): (e: string)
    ensures '/' !in e
  {
    if seg == [] then [] else EscapeChar(seg[0]) + EscapeSegment(seg[1..])
  }

  predicate StartsWithHash(ref: string) {
    |ref| > 0 && ref[0] == '#'
  }

  /** `[p.replace("~1", "/").replace("~0", "~") for p in ref.split("/")[1:]]`:
      one segment per `/` of the fragment. */
  function PathOf(ref: string): (path: seq<string>)
    ensures |path| == multiset(ref)['/']
  {
    var pieces := Split(ref, '/')[1..];
    seq(|pieces|, i requires 0 <= i < |pieces| => DecodeSegment(pieces[i]))
  }

  /** The fragment `#/e1/e2/...` naming `path`, each segment escaped. */
  function PointerTo(path: seq<string>): string {
    Join(["#"] + seq(|path|, i requires 0 <= i < |path| => EscapeSegment(path[i])), '/')
  }

  // ---------------------------------------------------------------------
  // Splitting and joining.

  lemma {:induction false} SplitWithoutSep(a: string, sep: char)
    requires sep !in a
    ensures Split(a, sep) == [a]
  {
    if a != [] {
      SplitWithoutSep(a[1..], sep);
      assert [a[0]] + a[1..] == a;
    }
  }

  lemma {:induction false} SplitAtFirstSep(a: string, t: string, sep: char)
    requires sep !in a
    ensures Split(a + [sep] + t, sep) == [a] + Split(t, sep)
  {
    var s := a + [sep] + t;
    if a == [] {
      assert s[1..] == t;
    } else {
      assert s[1..] == a[1..] + [sep] + t;
      SplitAtFirstSep(a[1..], t, sep);
      assert [a[0]] + a[1..] == a;
    }
  }

  /** Splitting a join of separator-free pieces gives the pieces back. */
  lemma {:induction false} SplitJoin(parts: seq<string>, sep: char)
    requires |parts| >= 1
    requires forall i :: 0 <= i < |parts| ==> sep !in parts[i]
    ensures Split(Join(parts, sep), sep) == parts
    decreases |parts|
  {
    if |parts| == 1 {
      SplitWithoutSep(parts[0], sep);
    } else {
      SplitJoin(parts[1..], sep);
      SplitAtFirstSep(parts[0], Join(parts[1..], sep), sep);
      assert [parts[0]] + parts[1..] == parts;
    }
  }

  // ---------------------------------------------------------------------
  // Unescaping inverts escaping.

  lemma ReplaceAtMatch(pat: string, rep: string, y: string)
    requires |pat| > 0
    ensures Replace(pat + y, pat, rep) == rep + Replace(y, pat, rep)
  {
    var s := pat + y;
    assert s[..|pat|] == pat;
    assert s[|pat|..] == y;
  }

  lemma ReplaceNoMatch(s: string, pat: string, rep: string)
    requires |pat| > 0 && |s| > 0
    requires |s| < |pat| || s[0] != pat[0] || s[..|pat|] != pat
    ensures Replace(s, pat, rep) == [s[0]] + Replace(s[1..], pat, rep)
  {
    if |s| < |pat| {
      assert [s[0]] + s[1..] == s;
    } else if s[0] != pat[0] {
      assert s[..|pat|][0] != pat[0];
    }
  }

  /** One escaped character followed by anything decodes to that character. */
  lemma DecodeEscapedChar(c: char, y: string)
    ensures Replace(Replace(EscapeChar(c) + y, "~1", "/"), "~0", "~")
         == [c] + Replace(Replace(y, "~1", "/"), "~0", "~")
  {
    var r1y := Replace(y, "~1", "/");
    if c == '~' {
      var s := "~0" + y;
      assert s[..2] == "~0";
      ReplaceNoMatch(s, "~1", "/");
      assert s[1..] == "0" + y;
      ReplaceNoMatch("0" + y, "~1", "/");
      assert ("0" + y)[1..] == y;
      assert Replace(s, "~1", "/") == "~0" + r1y;
      ReplaceAtMatch("~0", "~", r1y);
    } else if c == '/' {
      ReplaceAtMatch("~1", "/", y);
      ReplaceNoMatch("/" + r1y, "~0", "~");
      assert ("/" + r1y)[1..] == r1y;
    } else {
      ReplaceNoMatch([c] + y, "~1", "/");
      assert ([c] + y)[1..] == y;
      ReplaceNoMatch([c] + r1y, "~0", "~");
      assert ([c] + r1y)[1..] == r1y;
    }
  }

  /** Section 4 of RFC 6901: decoding an escaped segment restores it. */
  lemma {:induction false} DecodeEscape(seg: string)
    ensures DecodeSegment(EscapeSegment(seg)) == seg
  {
    if seg != [] {
      DecodeEscape(seg[1..]);
      DecodeEscapedChar(seg[0], EscapeSegment(seg[1..]));
      assert [seg[0]] + seg[1..] == seg;
    }
  }

  /** A fragment built from a path reads back as that path. */
  lemma PathOfPointer(path: seq<string>)
    ensures PathOf(PointerTo(path)) == path
  {
    var escaped := seq(|path|, i requires 0 <= i < |path| => EscapeSegment(path[i]));
    SplitJoin(["#"] + escaped, '/');
    assert Split(PointerTo(path), '/')[1..] == escaped;
    forall i | 0 <= i < |path|
      ensures PathOf(PointerTo(path))[i] == path[i]
    {
      DecodeEscape(path[i]);
    }
  }

  /** `"#"` and `"#foo"` (no `/`) name the root itself. */
  lemma FragmentWithoutSlashIsRoot(ref: string)
    requires '/' !in ref
    ensures PathOf(ref) == []
  {
    SplitWithoutSep(ref, '/');
  }
}
