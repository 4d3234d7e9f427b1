/** `chopin/tools/strings.py`: the name simplification used to compare
    playlist names, the accent-insensitive name match used for artist search,
    and the extraction of a playlist id from a share link. */
module Strings {
  import Common
  import Seqs

  /** The Unicode services the module calls into: `emoji.replace_emoji`,
      `unicodedata.normalize("NFD", ...)` and the test
      `unicodedata.category(c) == "Mn"`; `str.lower` is narrowed to a
      character-by-character mapping (`lowerChar`). */
  datatype TextLib = TextLib(
    replaceEmoji: string -> string,
    lowerChar: char -> char,
    nfd: string -> string,
    isMark: char -> bool)

  /** Lower-casing twice is lower-casing once, and `_` has no case. */
  predicate WellBehaved(lib: TextLib) {
    (forall c :: lib.lowerChar(lib.lowerChar(c)) == lib.lowerChar(c))
    && lib.lowerChar('_') == '_'
  }

  function Lower(lib: TextLib, s: string): string {
    Seqs.Map(s, lib.lowerChar)
  }

  // ---------------------------------------------------------------------
  // Character-level rewrites (`rstrip`, `lstrip`, `replace`)

  function RStrip(s: string, c: char): (r: string)
    ensures |r| <= |s| && r == s[..|r|]
    ensures |r| == 0 || r[|r| - 1] != c
    ensures forall i :: |r| <= i < |s| ==> s[i] == c
  {
    if |s| > 0 && s[|s| - 1] == c then RStrip(s[..|s| - 1], c) else s
  }

  function LStrip(s: string, c: char): (r: string)
    ensures |r| <= |s| && r == s[|s| - |r|..]
    ensures |r| == 0 || r[0] != c
    ensures forall i :: 0 <= i < |s| - |r| ==> s[i] == c
  {
    if |s| > 0 && s[0] == c then LStrip(s[1..], c) else s
  }

  /** `s.replace(c, "")`. */
  function RemoveChar(s: string, c: char): (r: string)
    ensures c !in r
    ensures c !in s ==> r == s
  {
    if |s| == 0 then ""
    else if s[0] == c then RemoveChar(s[1..], c)
    else [s[0]] + RemoveChar(s[1..], c)
  }

  lemma {:induction false} RemoveCharMembers(s: string, c: char)
    ensures forall x :: x in RemoveChar(s, c) <==> x in s && x != c
  {
    if |s| > 0 {
      RemoveCharMembers(s[1..], c);
      assert s == [s[0]] + s[1..];
    }
  }

  /** `s.replace(a, b)` for single characters `a` and `b`. */
  function ReplaceChar(s: string, a: char, b: char): (r: string)
    ensures |r| == |s|
    ensures forall i :: 0 <= i < |s| ==> r[i] == (if s[i] == a then b else s[i])
  {
    Seqs.Map(s, x => if x == a then b else x)
  }

  // ---------------------------------------------------------------------
  // simplify_string

  function SimplifyString(lib: TextLib, text: string): (r: string)
    ensures ' ' !in r && '\'' !in r && '&' !in r
  {
    var noEmoji := lib.replaceEmoji(text);
    var lowered := Lower(lib, noEmoji);
    var stripped := LStrip(RStrip(lowered, ' '), ' ');
    var noQuote := RemoveChar(stripped, '\'');
    var noSpace := RemoveChar(noQuote, ' ');
    RemoveCharMembers(noQuote, ' ');
    ReplaceChar(noSpace, '&', '_')
  }

  predicate LowerFixed(lib: TextLib, s: string) {
    forall c :: c in s ==> lib.lowerChar(c) == c
  }

  lemma LowerOfFixed(lib: TextLib, s: string)
    requires LowerFixed(lib, s)
    ensures Lower(lib, s) == s
  {
  }

  lemma LowerIsFixed(lib: TextLib, s: string)
    requires WellBehaved(lib)
    ensures LowerFixed(lib, Lower(lib, s))
  {
    var l := Lower(lib, s);
    forall c | c in l ensures lib.lowerChar(c) == c {
      var i :| 0 <= i < |l| && l[i] == c;
      assert c == lib.lowerChar(s[i]);
    }
  }

  lemma FixedSlice(lib: TextLib, s: string, lo: nat, hi: nat)
    requires LowerFixed(lib, s) && lo <= hi <= |s|
    ensures LowerFixed(lib, s[lo..hi])
  {
    var t := s[lo..hi];
    forall c | c in t ensures lib.lowerChar(c) == c {
      var i :| 0 <= i < |t| && t[i] == c;
      assert s[lo + i] == c;
    }
  }

  lemma FixedRemove(lib: TextLib, s: string, x: char)
    requires LowerFixed(lib, s)
    ensures LowerFixed(lib, RemoveChar(s, x))
  {
    RemoveCharMembers(s, x);
  }

  lemma FixedReplaceToUnderscore(lib: TextLib, s: string, x: char)
    requires LowerFixed(lib, s) && lib.lowerChar('_') == '_'
    ensures LowerFixed(lib, ReplaceChar(s, x, '_'))
  {
    var r := ReplaceChar(s, x, '_');
    forall c | c in r ensures lib.lowerChar(c) == c {
      var i :| 0 <= i < |r| && r[i] == c;
      assert c == '_' || c == s[i];
    }
  }

  /** Every character of a simplified string is already lower-case. */
  lemma SimplifiedIsLower(lib: TextLib, text: string)
    requires WellBehaved(lib)
    ensures LowerFixed(lib, SimplifyString(lib, text))
  {
    var lowered := Lower(lib, lib.replaceEmoji(text));
    LowerIsFixed(lib, lib.replaceEmoji(text));
    var rs := RStrip(lowered, ' ');
    FixedSlice(lib, lowered, 0, |rs|);
    var stripped := LStrip(rs, ' ');
    FixedSlice(lib, rs, |rs| - |stripped|, |rs|);
    var noQuote := RemoveChar(stripped, '\'');
    FixedRemove(lib, stripped, '\'');
    var noSpace := RemoveChar(noQuote, ' ');
    FixedRemove(lib, noQuote, ' ');
    FixedReplaceToUnderscore(lib, noSpace, '&');
  }

  /** Simplifying an already simplified name changes nothing, provided the
      emoji remover leaves that name alone (the name holds no emoji). */
  lemma SimplifyIdempotent(lib: TextLib, text: string)
    requires WellBehaved(lib)
    requires lib.replaceEmoji(SimplifyString(lib, text)) == SimplifyString(lib, text)
    ensures SimplifyString(lib, SimplifyString(lib, text)) == SimplifyString(lib, text)
  {
    var y := SimplifyString(lib, text);
    SimplifiedIsLower(lib, text);
    LowerOfFixed(lib, y);
    assert RStrip(y, ' ') == y;
    assert LStrip(y, ' ') == y;
    assert ReplaceChar(y, '&', '_') == y;
  }

  /** A text library for ASCII text: no emoji, ASCII case mapping, no marks. */
  function AsciiLower(c: char): char {
    if 'A' <= c <= 'Z' then (c as int + 32) as char else c
  }

  const AsciiLib: TextLib := TextLib(s => s, AsciiLower, s => s, c => false)

  lemma AsciiLibWellBehaved()
    ensures WellBehaved(AsciiLib)
  {
  }

  lemma RemoveCharAppend(a: string, b: string, c: char)
    ensures RemoveChar(a + b, c) == RemoveChar(a, c) + RemoveChar(b, c)
  {
    if |a| > 0 {
      assert (a + b)[1..] == a[1..] + b;
      RemoveCharAppend(a[1..], b, c);
    } else {
      assert a + b == b;
    }
  }

  lemma RemoveCharAll(s: string, c: char)
    requires forall i :: 0 <= i < |s| ==> s[i] == c
    ensures RemoveChar(s, c) == ""
  {
    if |s| > 0 {
      RemoveCharAll(s[1..], c);
    }
  }

  lemma EmptyAround(x: string)
    ensures "" + x + "" == x
  {
  }

  /** Removing a character that a sequence holds only at its two ends. */
  lemma RemoveAround(p: string, m: string, q: string, c: char, d: char)
    requires forall i :: 0 <= i < |p| ==> p[i] == c
    requires forall i :: 0 <= i < |q| ==> q[i] == c
    requires c != d
    ensures RemoveChar(RemoveChar(p + m + q, d), c) == RemoveChar(RemoveChar(m, d), c)
  {
    assert d !in p && d !in q;
    RemoveCharAppend(p + m, q, d);
    RemoveCharAppend(p, m, d);
    var m' := RemoveChar(m, d);
    RemoveCharAppend(p + m', q, c);
    RemoveCharAppend(p, m', c);
    RemoveCharAll(p, c);
    RemoveCharAll(q, c);
    EmptyAround(RemoveChar(m', c));
  }

  lemma StripThenRemove(x: string)
    ensures RemoveChar(RemoveChar(LStrip(RStrip(x, ' '), ' '), '\''), ' ')
         == RemoveChar(RemoveChar(x, '\''), ' ')
  {
    var rs := RStrip(x, ' ');
    var st := LStrip(rs, ' ');
    var p, q := rs[..|rs| - |st|], x[|rs|..];
    assert x == p + st + q by {
      assert x == rs + q;
      assert rs == p + st;
    }
    assert forall i :: 0 <= i < |p| ==> p[i] == ' ' by {
      forall i | 0 <= i < |p| ensures p[i] == ' ' {
        assert p[i] == rs[i];
      }
    }
    assert forall i :: 0 <= i < |q| ==> q[i] == ' ' by {
      forall i | 0 <= i < |q| ensures q[i] == ' ' {
        assert q[i] == x[|rs| + i];
      }
    }
    RemoveAround(p, st, q, ' ', '\'');
  }

  /** Stripping the outer spaces is subsumed by removing every space: the
      simplified name is the lower-cased text without apostrophes and spaces,
      with `&` turned into `_`. */
  lemma SimplifyStringSpec(lib: TextLib, text: string)
    ensures SimplifyString(lib, text)
         == ReplaceChar(RemoveChar(RemoveChar(Lower(lib, lib.replaceEmoji(text)), '\''), ' '), '&', '_')
  {
    StripThenRemove(Lower(lib, lib.replaceEmoji(text)));
  }

  lemma ExampleLower()
    ensures Lower(AsciiLib, "A & b'c") == "a & b'c"
  {
  }

  lemma ExampleQuote()
    ensures RemoveChar("a & b'c", '\'') == "a & bc"
  {
    assert "a & b'c" == "a & b" + ("'" + "c");
    RemoveCharAppend("a & b", "'" + "c", '\'');
    RemoveCharAppend("'", "c", '\'');
    assert '\'' !in "a & b";
    assert "a & b" + ("" + "c") == "a & bc";
  }

  lemma ExampleSpace()
    ensures RemoveChar("a & bc", ' ') == "a&bc"
  {
  }

  lemma ExampleAmpersand()
    ensures ReplaceChar("a&bc", '&', '_') == "a_bc"
  {
    var r := ReplaceChar("a&bc", '&', '_');
    assert r[0] == 'a' && r[1] == '_' && r[2] == 'b' && r[3] == 'c';
  }

  lemma SimplifyExample()
    ensures SimplifyString(AsciiLib, "A & b'c") == "a_bc"
  {
    ExampleLower();
    ExampleQuote();
    ExampleSpace();
    ExampleAmpersand();
    SimplifyStringSpec(AsciiLib, "A & b'c");
  }

  // ---------------------------------------------------------------------
  // match_strings

  /** Lower-case, decompose, and drop the combining marks. */
  function Normalize(lib: TextLib, s: string): string {
    Seqs.Filter(lib.nfd(Lower(lib, s)), c => !lib.isMark(c))
  }

  function AllNormalizeTo(lib: TextLib, target: string, ss: seq<string>): bool {
    |ss| == 0 || (Normalize(lib, ss[0]) == target && AllNormalizeTo(lib, target, ss[1..]))
  }

  function MatchStrings(lib: TextLib, strings: seq<string>): (r: bool)
    ensures |strings| < 2 ==> r
  {
    if |strings| < 2 then true
    else AllNormalizeTo(lib, Normalize(lib, strings[0]), strings[1..])
  }

  lemma {:induction false} AllNormalizeToSpec(lib: TextLib, target: string, ss: seq<string>)
    ensures AllNormalizeTo(lib, target, ss)
        <==> forall i :: 0 <= i < |ss| ==> Normalize(lib, ss[i]) == target
  {
    if |ss| > 0 {
      AllNormalizeToSpec(lib, target, ss[1..]);
      assert forall i :: 1 <= i < |ss| ==> ss[1..][i - 1] == ss[i];
    }
  }

  /** The strings match exactly when all of them normalise to one value. */
  lemma MatchStringsSpec(lib: TextLib, strings: seq<string>)
    ensures MatchStrings(lib, strings)
        <==> forall i, j :: 0 <= i < |strings| && 0 <= j < |strings|
                ==> Normalize(lib, strings[i]) == Normalize(lib, strings[j])
  {
    if |strings| >= 2 {
      var target := Normalize(lib, strings[0]);
      AllNormalizeToSpec(lib, target, strings[1..]);
      if MatchStrings(lib, strings) {
        forall i | 0 <= i < |strings| ensures Normalize(lib, strings[i]) == target {
          if i > 0 {
            assert strings[1..][i - 1] == strings[i];
          }
        }
      } else {
        var i :| 0 <= i < |strings[1..]| && Normalize(lib, strings[1..][i]) != target;
        assert strings[1..][i] == strings[i + 1];
      }
    }
  }

  // ---------------------------------------------------------------------
  // extract_uri_from_playlist_link: `re.search(r"playlist/([a-zA-Z0-9]+)\?", link)`

  predicate IsAlnum(c: char) {
    'a' <= c <= 'z' || 'A' <= c <= 'Z' || '0' <= c <= '9'
  }

  const Marker: string := "playlist/"

  /** The length of the run of ASCII letters and digits starting at `k`. */
  function AlnumRun(s: string, k: nat): (n: nat)
    requires k <= |s|
    ensures k + n <= |s|
    ensures forall j :: k <= j < k + n ==> IsAlnum(s[j])
    ensures k + n == |s| || !IsAlnum(s[k + n])
    decreases |s| - k
  {
    if k < |s| && IsAlnum(s[k]) then 1 + AlnumRun(s, k + 1) else 0
  }

  /** The pattern read literally: the marker at `i`, then `n >= 1` letters or
      digits, then `?`. */
  predicate PatternAt(s: string, i: nat, n: nat) {
    i + |Marker| + n < |s|
    && s[i..i + |Marker|] == Marker
    && n >= 1
    && (forall j :: i + |Marker| <= j < i + |Marker| + n ==> IsAlnum(s[j]))
    && s[i + |Marker| + n] == '?'
  }

  /** A match starts at `i`: the marker, then the maximal run of letters and
      digits, then `?`. */
  predicate MatchAt(s: string, i: nat) {
    i + |Marker| <= |s|
    && s[i..i + |Marker|] == Marker
    && var n := AlnumRun(s, i + |Marker|);
       n >= 1 && i + |Marker| + n < |s| && s[i + |Marker| + n] == '?'
  }

  /** The group the pattern captures is unique: it is the maximal run. */
  lemma PatternAtIsMaximalRun(s: string, i: nat, n: nat)
    ensures PatternAt(s, i, n) <==> MatchAt(s, i) && n == AlnumRun(s, i + |Marker|)
  {
    if PatternAt(s, i, n) {
      AlnumRunExact(s, i + |Marker|, n);
    }
  }

  function SearchFrom(s: string, i: nat): (r: Common.Option<nat>)
    requires i <= |s|
    ensures r.Some? ==> i <= r.value && MatchAt(s, r.value)
                        && forall j :: i <= j < r.value ==> !MatchAt(s, j)
    ensures r.None? ==> forall j :: i <= j ==> !MatchAt(s, j)
    decreases |s| - i
  {
    if MatchAt(s, i) then Common.Some(i)
    else if i == |s| then Common.None
    else SearchFrom(s, i + 1)
  }

  /** The captured group of a match at `i`. */
  function Group(s: string, i: nat): string
    requires i + |Marker| <= |s|
  {
    s[i + |Marker|..i + |Marker| + AlnumRun(s, i + |Marker|)]
  }

  /** `i` is the leftmost match. */
  predicate FirstMatch(s: string, i: nat) {
    MatchAt(s, i) && forall j: nat :: j < i ==> !MatchAt(s, j)
  }

  lemma GroupAlnum(s: string, i: nat)
    requires i + |Marker| <= |s|
    ensures forall c :: c in Group(s, i) ==> IsAlnum(c)
  {
    var g := Group(s, i);
    forall c | c in g ensures IsAlnum(c) {
      var k :| 0 <= k < |g| && g[k] == c;
      assert c == s[i + |Marker| + k];
    }
  }

  function ExtractUriFromPlaylistLink(link: string): (r: string)
    ensures forall c :: c in r ==> IsAlnum(c)
    ensures r == "" <==> forall i: nat :: !MatchAt(link, i)
    ensures r != "" ==> exists i: nat :: FirstMatch(link, i) && r == Group(link, i)
  {
    match SearchFrom(link, 0)
    case None => ""
    case Some(i) =>
      GroupAlnum(link, i);
      assert FirstMatch(link, i);
      Group(link, i)
  }

  /** A link without `?` never matches. */
  lemma NoQuestionMarkNoUri(link: string)
    requires '?' !in link
    ensures ExtractUriFromPlaylistLink(link) == ""
  {
    forall i: nat ensures !MatchAt(link, i) {
      if i + |Marker| <= |link| {
        var n := AlnumRun(link, i + |Marker|);
        if i + |Marker| + n < |link| {
          assert link[i + |Marker| + n] in link;
        }
      }
    }
  }

  const SharePrefix: string := "https://open.spotify.com/playlist/"

  /** A share link yields the id it carries. */
  lemma ExtractFromShareLink(id: string, query: string)
    requires |id| >= 1 && forall c :: c in id ==> IsAlnum(c)
    ensures ExtractUriFromPlaylistLink(SharePrefix + id + "?" + query) == id
  {
    var s := SharePrefix + id + "?" + query;
    var p := |SharePrefix|;
    assert p == 34;
    assert s[..p] == SharePrefix;
    assert s[p..p + |id|] == id;
    assert s[p + |id|] == '?';
    assert AlnumRun(s, p) == |id| by {
      AlnumRunExact(s, p, |id|);
    }
    assert s[25..34] == Marker;
    assert MatchAt(s, 25);
    forall j: nat | j < 25 ensures !MatchAt(s, j) {
      assert s[j + 8] == SharePrefix[j + 8];
      if j == 16 {
        assert s[j..j + 9][0] != Marker[0];
      } else {
        assert s[j..j + 9][8] != Marker[8];
      }
    }
    assert SearchFrom(s, 0) == Common.Some(25) by {
      var r := SearchFrom(s, 0);
      if r.Some? {
        assert r.value >= 25;
        assert !(r.value > 25);
      }
    }
  }

  lemma AlnumRunExact(s: string, k: nat, n: nat)
    requires k + n < |s|
    requires forall j :: k <= j < k + n ==> IsAlnum(s[j])
    requires !IsAlnum(s[k + n])
    ensures AlnumRun(s, k) == n
    decreases n
  {
    if n > 0 {
      AlnumRunExact(s, k + 1, n - 1);
    }
  }

  /** `str.startswith`. */
  predicate StartsWith(s: string, prefix: string) {
    |prefix| <= |s| && s[..|prefix|] == prefix
  }
}
