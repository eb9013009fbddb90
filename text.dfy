// Character and string helpers shared by the front-end and back-end models:
// ASCII whitespace, trimming, ASCII lower-casing, prefix/substring tests and
// splitting on a separator character.
module Text {
  type String = seq<char>

  /** The ASCII whitespace that both `String.prototype.trim` and Python's
      `str.strip` remove. Python's `strip` also removes the separators
      U+001C to U+001F, and both remove further non-ASCII spaces; those
      characters are not treated as whitespace here. */
  predicate IsSpace(c: char)
  {
    c == ' ' || c == '\t' || c == '\n' || c == '\r' || c == '\U{000B}' || c == '\U{000C}'
  }

  predicate IsBlank(s: String)
  {
    forall i :: 0 <= i < |s| ==> IsSpace(s[i])
  }

  function TrimStart(s: String): (r: String)
    ensures |r| <= |s| && r == s[|s| - |r|..]
    ensures r == [] || !IsSpace(r[0])
    ensures forall i :: 0 <= i < |s| - |r| ==> IsSpace(s[i])
  {
    if |s| > 0 && IsSpace(s[0]) then
      var t := s[1..];
      var r := TrimStart(t);
      assert s[|s| - |r|..] == t[|t| - |r|..];
      assert forall i :: 1 <= i < |s| - |r| ==> s[i] == t[i - 1];
      r
    else s
  }

  function TrimEnd(s: String): (r: String)
    ensures |r| <= |s| && r == s[..|r|]
    ensures r == [] || !IsSpace(r[|r| - 1])
    ensures forall i :: |r| <= i < |s| ==> IsSpace(s[i])
  {
    if |s| > 0 && IsSpace(s[|s| - 1]) then
      var t := s[..|s| - 1];
      var r := TrimEnd(t);
      assert s[..|r|] == t[..|r|];
      assert forall i :: |r| <= i < |t| ==> s[i] == t[i];
      r
    else s
  }

  /** JavaScript's `.length`: UTF-16 code units, so a character outside the
      Basic Multilingual Plane counts twice. */
  function Utf16Length(s: String): (n: nat)
    ensures |s| <= n <= 2 * |s|
  {
    if |s| == 0 then 0 else (if s[0] as int >= 0x1_0000 then 2 else 1) + Utf16Length(s[1..])
  }

  /** Text made only of Basic Multilingual Plane characters has one code
      unit per character. */
  lemma {:induction false} Utf16LengthOfBmp(s: String)
    requires forall i :: 0 <= i < |s| ==> s[i] as int < 0x1_0000
    ensures Utf16Length(s) == |s|
  {
    if |s| > 0 {
      Utf16LengthOfBmp(s[1..]);
    }
  }

  /** `s.trim()` / `s.strip()`. */
  function Trim(s: String): (r: String)
  {
    TrimEnd(TrimStart(s))
  }

  /** A string trims to the empty string exactly when it is all whitespace. */
  lemma {:induction false} TrimEmptyIffBlank(s: String)
    ensures Trim(s) == [] <==> IsBlank(s)
  {
    var t := TrimStart(s);
    if Trim(s) == [] {
      assert t == [];
    } else if IsBlank(s) {
      assert false;
    }
  }

  /** Trimming leaves a string whose ends are not whitespace and that occurs
      inside the original. */
  lemma {:induction false} TrimIsInner(s: String)
    ensures Trim(s) == [] || (!IsSpace(Trim(s)[0]) && !IsSpace(Trim(s)[|Trim(s)| - 1]))
    ensures exists k :: OccursAt(s, Trim(s), k)
  {
    var t := TrimStart(s);
    var k := |s| - |t|;
    assert s[k..k + |Trim(s)|] == t[..|Trim(s)|];
    assert OccursAt(s, Trim(s), k);
  }

  /** Trimming twice changes nothing further. */
  lemma {:induction false} TrimIdempotent(s: String)
    ensures Trim(Trim(s)) == Trim(s)
  {
    var r := Trim(s);
    TrimIsInner(s);
    NoEdgeSpaceTrimsToSelf(r);
  }

  lemma {:induction false} NoEdgeSpaceTrimsToSelf(s: String)
    requires s == [] || (!IsSpace(s[0]) && !IsSpace(s[|s| - 1]))
    ensures Trim(s) == s
  {
  }

  function LowerChar(c: char): (r: char)
    ensures 'A' <= c <= 'Z' ==> r as int == c as int + 32
    ensures !('A' <= c <= 'Z') ==> r == c
  {
    if 'A' <= c <= 'Z' then (c as int + 32) as char else c
  }

  /** ASCII `toLowerCase()` / `lower()`. */
  function Lower(s: String): (r: String)
    ensures |r| == |s|
    ensures forall i :: 0 <= i < |s| ==> r[i] == LowerChar(s[i])
  {
    seq(|s|, i requires 0 <= i < |s| => LowerChar(s[i]))
  }

  /** `sub` occurs in `s` starting at offset `k`. */
  predicate OccursAt(s: String, sub: String, k: int)
  {
    0 <= k && k + |sub| <= |s| && s[k..k + |sub|] == sub
  }

  /** `s.includes(sub)`: `sub` occurs at some offset of `s`. */
  predicate Contains(s: String, sub: String)
  {
    exists k :: 0 <= k <= |s| && OccursAt(s, sub, k)
  }

  /** The text before the first `sep`, i.e. `s.split(sep)[0]`. */
  function FirstField(s: String, sep: char): (r: String)
    ensures r <= s
    ensures sep !in r
    ensures |r| < |s| ==> s[|r|] == sep
  {
    if |s| == 0 || s[0] == sep then [] else [s[0]] + FirstField(s[1..], sep)
  }

  /** `s.split(sep)`: the fields between the separators, in order. */
  function Split(s: String, sep: char): (r: seq<String>)
    ensures |r| >= 1
    ensures forall i :: 0 <= i < |r| ==> sep !in r[i]
    decreases |s|
  {
    var h := FirstField(s, sep);
    if |h| == |s| then [s] else [h] + Split(s[|h| + 1..], sep)
  }

  /** The first field of a split is the text before the first separator. */
  lemma {:induction false} SplitHead(s: String, sep: char)
    ensures Split(s, sep)[0] == FirstField(s, sep)
  {
  }

  /** `fields.join(sep)`. */
  function JoinWith(fields: seq<String>, sep: char): String
  {
    if |fields| == 0 then []
    else if |fields| == 1 then fields[0]
    else fields[0] + [sep] + JoinWith(fields[1..], sep)
  }

  /** Splitting and re-joining on the same separator gives back the text. */
  lemma {:induction false} SplitJoinRoundTrip(s: String, sep: char)
    ensures JoinWith(Split(s, sep), sep) == s
    decreases |s|
  {
    var h := FirstField(s, sep);
    if |h| < |s| {
      var rest := s[|h| + 1..];
      assert s == h + [sep] + rest;
      var tail := Split(rest, sep);
      assert Split(s, sep) == [h] + tail;
      JoinCons(h, tail, sep);
      SplitJoinRoundTrip(rest, sep);
    }
  }

  lemma JoinCons(h: String, tail: seq<String>, sep: char)
    requires |tail| >= 1
    ensures JoinWith([h] + tail, sep) == h + [sep] + JoinWith(tail, sep)
  {
    assert ([h] + tail)[1..] == tail;
  }

  /** The text after the last `sep`, i.e. `s.split(sep).pop()`. */
  function LastField(s: String, sep: char): (r: String)
    ensures |r| <= |s| && r == s[|s| - |r|..]
    ensures sep !in r
    ensures |r| < |s| ==> s[|s| - |r| - 1] == sep
  {
    if |s| == 0 || s[|s| - 1] == sep then [] else LastField(s[..|s| - 1], sep) + [s[|s| - 1]]
  }

  predicate IsSuffix(u: String, s: String)
  {
    |u| <= |s| && u == s[|s| - |u|..]
  }

  /** A suffix of a suffix is a suffix, and holds no character the longer
      string lacks. */
  lemma {:induction false} SuffixTrans(u: String, t: String, s: String)
    requires IsSuffix(u, t) && IsSuffix(t, s)
    ensures IsSuffix(u, s)
    ensures forall c :: c in u ==> c in s
  {
    forall c | c in u ensures c in s {
      var i :| 0 <= i < |u| && u[i] == c;
      assert s[|s| - |u| + i] == c;
    }
  }

  /** When the separator occurs, the last field is preceded by it. */
  lemma {:induction false} LastFieldAfterSep(s: String, sep: char)
    requires sep in s
    ensures |LastField(s, sep)| < |s|
    ensures IsSuffix([sep] + LastField(s, sep), s)
  {
    var t := LastField(s, sep);
    assert t != s;
    var k := |s| - |t| - 1;
    assert s[k] == sep;
    assert s[k..] == [s[k]] + s[k + 1..];
  }

  /** `s.split(sep).pop()`: the last field of the split. */
  function LastOfSplit(s: String, sep: char): String
  {
    var parts := Split(s, sep);
    parts[|parts| - 1]
  }

  /** `LastField` is the last element of `Split`, as `split(sep).pop()` is. */
  lemma {:induction false} LastFieldIsLastOfSplit(s: String, sep: char)
    ensures LastField(s, sep) == LastOfSplit(s, sep)
  {
    LastOfSplitShape(s, sep);
    LastFieldUnique(s, sep, LastOfSplit(s, sep));
  }

  /** The last field of a split ends the text, holds no separator and,
      when shorter than the text, follows a separator. */
  lemma {:induction false} LastOfSplitShape(s: String, sep: char)
    ensures var t := LastOfSplit(s, sep);
            IsSuffix(t, s) && sep !in t && (|t| < |s| ==> s[|s| - |t| - 1] == sep)
    decreases |s|
  {
    var h := FirstField(s, sep);
    if |h| < |s| {
      var rest := s[|h| + 1..];
      var t := LastOfSplit(rest, sep);
      LastOfSplitStep(s, sep);
      assert LastOfSplit(s, sep) == t;
      LastOfSplitShape(rest, sep);
      ShapeAfterSep(s, sep, |h|, t);
    } else {
      assert h == s;
    }
  }

  /** Past the first separator, the split's last field is that of the rest. */
  lemma {:induction false} LastOfSplitStep(s: String, sep: char)
    requires |FirstField(s, sep)| < |s|
    ensures LastOfSplit(s, sep) == LastOfSplit(s[|FirstField(s, sep)| + 1..], sep)
  {
    var h := FirstField(s, sep);
    var tail := Split(s[|h| + 1..], sep);
    LastOfCons(h, tail, Split(s, sep));
  }

  /** A suffix of the text after the separator at `k` that starts that text
      or follows a separator is a suffix of the whole text that follows a
      separator. */
  lemma {:induction false} ShapeAfterSep(s: String, sep: char, k: int, t: String)
    requires 0 <= k < |s| && s[k] == sep
    requires var rest := s[k + 1..];
             IsSuffix(t, rest) && sep !in t && (|t| < |rest| ==> rest[|rest| - |t| - 1] == sep)
    ensures IsSuffix(t, s) && sep !in t && |t| < |s| && s[|s| - |t| - 1] == sep
  {
    assert s[|s| - |t|..] == s[k + 1..][|s| - k - 1 - |t|..];
  }

  /** A separator-free suffix that starts the text or follows a separator
      is the last field. */
  lemma {:induction false} LastFieldUnique(s: String, sep: char, t: String)
    requires IsSuffix(t, s) && sep !in t && (|t| < |s| ==> s[|s| - |t| - 1] == sep)
    ensures t == LastField(s, sep)
  {
  }

  lemma {:induction false} LastOfCons(h: String, tail: seq<String>, whole: seq<String>)
    requires |tail| > 0 && whole == [h] + tail
    ensures |whole| > 0 && whole[|whole| - 1] == tail[|tail| - 1]
  {
  }

  lemma {:induction false} NoSepLastField(s: String, sep: char)
    requires sep !in s
    ensures LastField(s, sep) == s
  {
    if |s| > 0 {
      assert s[..|s| - 1] + [s[|s| - 1]] == s;
      NoSepLastField(s[..|s| - 1], sep);
    }
  }

  /** The first field ends at the first separator. */
  lemma {:induction false} FirstFieldAt(s: String, sep: char, i: int)
    requires 0 <= i < |s| && s[i] == sep && sep !in s[..i]
    ensures FirstField(s, sep) == s[..i]
  {
  }

  /** The last field starts after the last separator. */
  lemma {:induction false} LastFieldAt(s: String, sep: char, k: int)
    requires 0 <= k < |s| && s[k] == sep && sep !in s[k + 1..]
    ensures LastField(s, sep) == s[k + 1..]
  {
  }
}
