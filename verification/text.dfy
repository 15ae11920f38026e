/** The string operations the preset agent relies on: ASCII lower-casing,
    substring search (Python's `needle in hay`) and the slug of a name
    (agents/preset_agent.py, `_slugify`). */
module Text {

  predicate IsUpper(c: char) {
    'A' <= c <= 'Z'
  }

  /** `str.lower()` on ASCII: upper-case letters become lower-case, every
      other character is kept. */
  function Lower(s: string): (r: string)
    ensures |r| == |s|
    ensures forall i :: 0 <= i < |s| ==> !IsUpper(r[i])
    ensures forall i :: 0 <= i < |s| && !IsUpper(s[i]) ==> r[i] == s[i]
    ensures forall i :: 0 <= i < |s| && IsUpper(s[i]) ==> r[i] as int == s[i] as int + 32
  {
    seq(|s|, i requires 0 <= i < |s| => if IsUpper(s[i]) then (s[i] as int + 32) as char else s[i])
  }

  /** A string without upper-case letters is its own lower case. */
  lemma LowerIdempotent(s: string)
    ensures Lower(Lower(s)) == Lower(s)
  {
  }

  /** `needle` occurs in `hay` starting at index `i`. */
  predicate OccursAt(hay: string, needle: string, i: int) {
    0 <= i && i + |needle| <= |hay| && hay[i..i + |needle|] == needle
  }

  /** `needle in hay`: the needle occurs at some index of the hay. */
  function Contains(hay: string, needle: string): (b: bool)
    ensures b <==> exists i :: OccursAt(hay, needle, i)
    decreases |hay|
  {
    if |needle| > |hay| then
      assert forall i :: !OccursAt(hay, needle, i);
      false
    else if needle <= hay then
      assert OccursAt(hay, needle, 0);
      true
    else
      var rest := Contains(hay[1..], needle);
      assert !OccursAt(hay, needle, 0);
      forall i | 0 < i
        ensures OccursAt(hay, needle, i) <==> OccursAt(hay[1..], needle, i - 1)
      {
        OccursShift(hay, needle, i);
      }
      assert rest ==> OccursAt(hay, needle, (var k :| OccursAt(hay[1..], needle, k); k) + 1);
      rest
  }

  /** An occurrence past the first character is an occurrence in the tail. */
  lemma OccursShift(hay: string, needle: string, i: int)
    requires 0 < i && |hay| > 0
    ensures OccursAt(hay, needle, i) <==> OccursAt(hay[1..], needle, i - 1)
  {
    if i + |needle| <= |hay| {
      assert hay[i..i + |needle|] == hay[1..][i - 1..i - 1 + |needle|];
    }
  }

  // ------------------------------------------------------------------ slug

  /** The characters a slug keeps: `[a-z0-9]`. */
  predicate IsSlugChar(c: char) {
    'a' <= c <= 'z' || '0' <= c <= '9'
  }

  /** The kept characters of `s`, in order. */
  function Alnums(s: string): (r: string)
    ensures |r| <= |s|
    ensures forall i :: 0 <= i < |r| ==> IsSlugChar(r[i])
    ensures r == "" <==> forall i :: 0 <= i < |s| ==> !IsSlugChar(s[i])
  {
    if |s| == 0 then ""
    else
      var rest := Alnums(s[1..]);
      assert forall i :: 1 <= i < |s| ==> s[i] == s[1..][i - 1];
      if IsSlugChar(s[0]) then
        assert forall i :: 1 <= i < |rest| + 1 ==> ([s[0]] + rest)[i] == rest[i - 1];
        [s[0]] + rest
      else rest
  }

  lemma {:induction false} AlnumsAppend(a: string, b: string)
    ensures Alnums(a + b) == Alnums(a) + Alnums(b)
    decreases |a|
  {
    if |a| == 0 {
      assert a + b == b;
    } else {
      assert (a + b)[0] == a[0];
      assert (a + b)[1..] == a[1..] + b;
      AlnumsAppend(a[1..], b);
    }
  }

  /** `s` holds kept characters and underscores only, and never two
      underscores in a row. */
  predicate SeparatedWords(s: string) {
    && (forall i :: 0 <= i < |s| ==> IsSlugChar(s[i]) || s[i] == '_')
    && (forall i :: 0 <= i < |s| - 1 ==> !(s[i] == '_' && s[i + 1] == '_'))
  }

  /** What `_slugify` promises: non-empty, over `[a-z0-9_]`, no `__`, and
      no underscore at either end. */
  predicate IsSlug(s: string) {
    |s| > 0 && SeparatedWords(s) && s[0] != '_' && s[|s| - 1] != '_'
  }

  /** The length of the leading run of characters outside `[a-z0-9]`. */
  function RunLength(s: string): (n: nat)
    ensures n <= |s|
    ensures forall i :: 0 <= i < n ==> !IsSlugChar(s[i])
    ensures n < |s| ==> IsSlugChar(s[n])
  {
    if |s| > 0 && !IsSlugChar(s[0]) then
      var n := RunLength(s[1..]);
      assert forall i :: 1 <= i < n + 1 ==> s[i] == s[1..][i - 1];
      n + 1
    else 0
  }

  /** `re.sub(r"[^a-z0-9]+", "_", s)`: every maximal run of characters
      outside `[a-z0-9]` becomes one underscore. */
  function ReplaceRuns(s: string): (r: string)
    ensures SeparatedWords(r)
    ensures |s| == 0 <==> |r| == 0
    ensures |s| > 0 && IsSlugChar(s[0]) ==> r[0] == s[0]
    ensures |s| > 0 && !IsSlugChar(s[0]) ==> r[0] == '_'
    decreases |s|
  {
    if |s| == 0 then ""
    else if IsSlugChar(s[0]) then
      var rest := ReplaceRuns(s[1..]);
      assert forall i :: 1 <= i < |rest| + 1 ==> ([s[0]] + rest)[i] == rest[i - 1];
      [s[0]] + rest
    else
      var n := RunLength(s);
      var rest := ReplaceRuns(s[n..]);
      assert forall i :: 1 <= i < |rest| + 1 ==> ("_" + rest)[i] == rest[i - 1];
      "_" + rest
  }

  /** Replacing runs keeps every kept character, in order. */
  lemma {:induction false} ReplaceRunsKeepsAlnums(s: string)
    ensures Alnums(ReplaceRuns(s)) == Alnums(s)
    decreases |s|
  {
    if |s| > 0 {
      if IsSlugChar(s[0]) {
        ReplaceRunsKeepsAlnums(s[1..]);
        AlnumsCons(s[0], ReplaceRuns(s[1..]));
        AlnumsCons(s[0], s[1..]);
        assert [s[0]] + s[1..] == s;
      } else {
        var n := RunLength(s);
        var run, rest := s[..n], s[n..];
        ReplaceRunsKeepsAlnums(rest);
        UnderscoresOnly("_");
        AlnumsDropPrefix("_", ReplaceRuns(rest));
        assert s == run + rest;
        AlnumsDropPrefix(run, rest);
      }
    }
  }

  /** A kept character heads what is kept. */
  lemma AlnumsCons(c: char, s: string)
    requires IsSlugChar(c)
    ensures Alnums([c] + s) == [c] + Alnums(s)
  {
    assert ([c] + s)[1..] == s;
  }

  /** A prefix without kept characters adds nothing. */
  lemma AlnumsDropPrefix(a: string, b: string)
    requires Alnums(a) == ""
    ensures Alnums(a + b) == Alnums(b)
  {
    AlnumsAppend(a, b);
  }

  /** The number of leading underscores. */
  function Leading(s: string): (n: nat)
    ensures n <= |s|
    ensures forall i :: 0 <= i < n ==> s[i] == '_'
    ensures n < |s| ==> s[n] != '_'
  {
    if |s| > 0 && s[0] == '_' then
      var n := Leading(s[1..]);
      assert forall i :: 1 <= i < n + 1 ==> s[i] == s[1..][i - 1];
      n + 1
    else 0
  }

  /** The number of trailing underscores. */
  function Trailing(s: string): (n: nat)
    ensures n <= |s|
    ensures forall i :: |s| - n <= i < |s| ==> s[i] == '_'
    ensures n < |s| ==> s[|s| - n - 1] != '_'
  {
    if |s| > 0 && s[|s| - 1] == '_' then
      var n := Trailing(s[..|s| - 1]);
      assert forall i :: 0 <= i < |s| - 1 ==> s[i] == s[..|s| - 1][i];
      n + 1
    else 0
  }

  /** `s.strip("_")`: the string without its leading and trailing
      underscores. Nothing is left of a string of underscores; a string
      that neither starts nor ends with one is kept whole. */
  function Strip(s: string): (r: string)
    ensures |r| <= |s|
    ensures |r| > 0 ==> r[0] != '_' && r[|r| - 1] != '_'
    ensures r == "" <==> forall i :: 0 <= i < |s| ==> s[i] == '_'
    ensures |s| > 0 && s[0] != '_' && s[|s| - 1] != '_' ==> r == s
  {
    var lo := Leading(s);
    var t := s[lo..];
    var r := t[..|t| - Trailing(t)];
    assert forall i :: 0 <= i < |t| ==> t[i] == s[lo + i];
    assert |s| > 0 && s[0] != '_' ==> lo == 0 && t == s;
    r
  }

  /** Stripping leaves a slice of the string that neither starts nor ends
      with an underscore, and only underscores were cut off. */
  lemma StripSlice(s: string) returns (lo: nat, hi: nat)
    ensures lo <= hi <= |s| && Strip(s) == s[lo..hi]
    ensures |Strip(s)| > 0 ==> Strip(s)[0] != '_' && Strip(s)[|Strip(s)| - 1] != '_'
    ensures forall i :: 0 <= i < lo ==> s[i] == '_'
    ensures forall i :: hi <= i < |s| ==> s[i] == '_'
  {
    lo := Leading(s);
    var t := s[lo..];
    var m := Trailing(t);
    hi := |s| - m;
    assert t[..|t| - m] == s[lo..hi];
    forall i | hi <= i < |s|
      ensures s[i] == '_'
    {
      assert s[i] == t[i - lo];
    }
  }

  /** The slug of a name: its lower-cased runs of letters and digits
      joined by single underscores, or "preset" when it has none
      (`SlugifyJoinsWords` states this against the words of the name). */
  function Slugify(text: string): (r: string)
    ensures IsSlug(r)
    ensures Alnums(Lower(text)) == "" ==> r == "preset"
    ensures Alnums(Lower(text)) != "" ==> Alnums(r) == Alnums(Lower(text))
  {
    var replaced := ReplaceRuns(Lower(text));
    var slug := Strip(replaced);
    SlugFacts(Lower(text));
    if slug == "" then
      assert IsSlugChar('p') && IsSlugChar('r') && IsSlugChar('e') && IsSlugChar('s') && IsSlugChar('t');
      "preset"
    else slug
  }

  /** The facts about the stripped replacement that `Slugify` rests on. */
  lemma SlugFacts(s: string)
    ensures Strip(ReplaceRuns(s)) == "" <==> Alnums(s) == ""
    ensures Strip(ReplaceRuns(s)) != "" ==> IsSlug(Strip(ReplaceRuns(s)))
    ensures Alnums(Strip(ReplaceRuns(s))) == Alnums(s)
  {
    var x := ReplaceRuns(s);
    ReplaceRunsKeepsAlnums(s);
    StripKeepsAlnums(x);
    StripSeparatedWords(x);
  }

  /** Stripping underscores keeps every kept character. */
  lemma StripKeepsAlnums(x: string)
    ensures Alnums(Strip(x)) == Alnums(x)
  {
    var lo, hi := StripSlice(x);
    var a, m, b := x[..lo], x[lo..hi], x[hi..];
    assert x == a + m + b;
    UnderscoresOnly(a);
    UnderscoresOnly(b);
    AlnumsFrame(a, m, b);
  }

  /** A string of underscores keeps no character. */
  lemma UnderscoresOnly(s: string)
    requires forall i :: 0 <= i < |s| ==> s[i] == '_'
    ensures Alnums(s) == ""
  {
  }

  /** Parts without kept characters around a middle add nothing to it. */
  lemma AlnumsFrame(a: string, m: string, b: string)
    requires Alnums(a) == "" && Alnums(b) == ""
    ensures Alnums(a + m + b) == Alnums(m)
  {
    AlnumsAppend(a + m, b);
    AlnumsAppend(a, m);
  }

  /** Stripping separated words leaves a slug, or nothing when there was
      no kept character. */
  lemma StripSeparatedWords(x: string)
    requires SeparatedWords(x)
    ensures Strip(x) != "" ==> IsSlug(Strip(x))
    ensures Strip(x) != "" ==> Alnums(Strip(x)) != ""
  {
    var lo, hi := StripSlice(x);
    var mid := x[lo..hi];
    if mid != "" {
      forall i | 0 <= i < |mid|
        ensures IsSlugChar(mid[i]) || mid[i] == '_'
      {
        assert mid[i] == x[lo + i];
      }
      forall i | 0 <= i < |mid| - 1
        ensures !(mid[i] == '_' && mid[i + 1] == '_')
      {
        assert mid[i] == x[lo + i] && mid[i + 1] == x[lo + i + 1];
      }
      assert IsSlugChar(mid[0]);
    }
  }

  /** `_slugify` is idempotent: a slug is its own slug. */
  lemma SlugifyIdempotent(text: string)
    ensures Slugify(Slugify(text)) == Slugify(text)
  {
    SlugIsFixed(Slugify(text));
  }

  lemma SlugIsFixed(s: string)
    requires IsSlug(s)
    ensures Slugify(s) == s
  {
    LowerKeepsSeparatedWords(s);
    ReplaceRunsFixed(s);
    StripSlug(s);
  }

  /** Lower-casing changes nothing in a string of separated words. */
  lemma LowerKeepsSeparatedWords(s: string)
    requires SeparatedWords(s)
    ensures Lower(s) == s
  {
    assert forall i :: 0 <= i < |s| ==> !IsUpper(s[i]);
  }

  /** A slug has no underscore to strip. */
  lemma StripSlug(s: string)
    requires IsSlug(s)
    ensures Strip(s) == s
  {
    assert Leading(s) == 0;
    assert s[0..] == s;
    assert Trailing(s) == 0;
  }

  /** Runs are single underscores already in a string of separated words,
      so replacing them changes nothing. */
  lemma {:induction false} ReplaceRunsFixed(s: string)
    requires SeparatedWords(s)
    ensures ReplaceRuns(s) == s
    decreases |s|
  {
    if |s| > 0 {
      assert SeparatedWords(s[1..]) by {
        forall i | 0 <= i < |s[1..]| - 1
          ensures !(s[1..][i] == '_' && s[1..][i + 1] == '_')
        {
          assert s[1..][i] == s[i + 1] && s[1..][i + 1] == s[i + 2];
        }
      }
      ReplaceRunsFixed(s[1..]);
      if !IsSlugChar(s[0]) {
        assert RunLength(s) == 1;
      }
      assert [s[0]] + s[1..] == s;
    }
  }


  /** A run of separators after a word becomes one underscore, before
      whatever the rest of the text turns into. */
  lemma {:induction false} SlugWordsJoin(a: string, sep: string, b: string)
    requires |a| > 0 && |sep| > 0 && |b| > 0
    requires forall i :: 0 <= i < |a| ==> IsSlugChar(a[i])
    requires forall i :: 0 <= i < |sep| ==> !IsSlugChar(sep[i])
    requires IsSlugChar(b[0])
    ensures ReplaceRuns(a + sep + b) == a + "_" + ReplaceRuns(b)
    decreases |a|
  {
    var s := a + sep + b;
    if |a| == 1 {
      assert s[1..] == sep + b;
      assert RunLength(sep + b) == |sep| by {
        RunLengthOf(sep, b);
      }
      assert (sep + b)[|sep|..] == b;
      assert ReplaceRuns(sep + b) == "_" + ReplaceRuns(b);
    } else {
      SlugWordsJoin(a[1..], sep, b);
      assert s[1..] == a[1..] + sep + b;
    }
  }

  lemma {:induction false} RunLengthOf(sep: string, b: string)
    requires forall i :: 0 <= i < |sep| ==> !IsSlugChar(sep[i])
    requires |b| > 0 && IsSlugChar(b[0])
    ensures RunLength(sep + b) == |sep|
    decreases |sep|
  {
    if |sep| > 0 {
      assert (sep + b)[1..] == sep[1..] + b;
      RunLengthOf(sep[1..], b);
    }
  }

  // -------------------------------------------- slug by words (reference)

  /** The length of the leading run of characters in `[a-z0-9]`. */
  function WordLength(s: string): (n: nat)
    ensures n <= |s|
    ensures forall i :: 0 <= i < n ==> IsSlugChar(s[i])
    ensures n < |s| ==> !IsSlugChar(s[n])
  {
    if |s| > 0 && IsSlugChar(s[0]) then
      var n := WordLength(s[1..]);
      assert forall i :: 1 <= i < n + 1 ==> s[i] == s[1..][i - 1];
      n + 1
    else 0
  }

  /** A non-empty string over `[a-z0-9]`. */
  predicate IsWord(w: string) {
    |w| > 0 && forall i :: 0 <= i < |w| ==> IsSlugChar(w[i])
  }

  /** The maximal runs of `[a-z0-9]` in `s`, in order. */
  function Words(s: string): (ws: seq<string>)
    ensures forall k :: 0 <= k < |ws| ==> IsWord(ws[k])
    ensures ws == [] <==> Alnums(s) == ""
    decreases |s|
  {
    if |s| == 0 then []
    else if !IsSlugChar(s[0]) then
      var rest := Words(s[RunLength(s)..]);
      assert Alnums(s) == Alnums(s[RunLength(s)..]) by {
        assert s == s[..RunLength(s)] + s[RunLength(s)..];
        AlnumsDropPrefix(s[..RunLength(s)], s[RunLength(s)..]);
      }
      rest
    else
      var n := WordLength(s);
      assert IsWord(s[..n]);
      var ws := [s[..n]] + Words(s[n..]);
      assert Alnums(s) != "" by {
        assert s == [s[0]] + s[1..];
        AlnumsCons(s[0], s[1..]);
      }
      ws
  }

  /** `"_".join(ws)`. */
  function JoinWords(ws: seq<string>): string {
    if |ws| == 0 then ""
    else if |ws| == 1 then ws[0]
    else ws[0] + "_" + JoinWords(ws[1..])
  }

  predicate Underscores(s: string) {
    forall i :: 0 <= i < |s| ==> s[i] == '_'
  }

  /** Joined words make a slug. */
  lemma {:induction false} JoinWordsSlug(ws: seq<string>)
    requires |ws| > 0 && forall k :: 0 <= k < |ws| ==> IsWord(ws[k])
    ensures IsSlug(JoinWords(ws))
    decreases |ws|
  {
    if |ws| > 1 {
      JoinWordsSlug(ws[1..]);
      var w, rest := ws[0], JoinWords(ws[1..]);
      var j := w + "_" + rest;
      assert IsWord(w);
      forall i | 0 <= i < |j|
        ensures IsSlugChar(j[i]) || j[i] == '_'
      {
        if i > |w| { assert j[i] == rest[i - |w| - 1]; }
      }
      forall i | 0 <= i < |j| - 1
        ensures !(j[i] == '_' && j[i + 1] == '_')
      {
        if i > |w| { assert j[i] == rest[i - |w| - 1] && j[i + 1] == rest[i - |w|]; }
      }
      assert j[|j| - 1] == rest[|rest| - 1];
    } else {
      assert IsWord(ws[0]);
    }
  }

  /** Replacing runs turns the words of `s` into their underscore join,
      with at most underscores around it: none before when `s` starts
      with a word, exactly one when it starts with separators before a
      word. */
  lemma {:induction false} ReplaceRunsWords(s: string) returns (pre: string, post: string)
    ensures Underscores(pre) && Underscores(post)
    ensures ReplaceRuns(s) == pre + JoinWords(Words(s)) + post
    ensures |s| > 0 && IsSlugChar(s[0]) ==> pre == ""
    ensures |s| > 0 && !IsSlugChar(s[0]) && Words(s) != [] ==> pre == "_"
    decreases |s|
  {
    if |s| == 0 {
      pre, post := "", "";
    } else if !IsSlugChar(s[0]) {
      var pre', post' := ReplaceRunsWords(s[RunLength(s)..]);
      SeparatorCase(s, pre', post');
      pre, post := "_" + pre', post';
    } else {
      var pre', post' := ReplaceRunsWords(s[WordLength(s)..]);
      pre, post := WordCase(s, pre', post');
    }
  }

  /** The step of `ReplaceRunsWords` past leading separators. */
  lemma SeparatorCase(s: string, pre: string, post: string)
    requires |s| > 0 && !IsSlugChar(s[0])
    requires var b := s[RunLength(s)..];
      ReplaceRuns(b) == pre + JoinWords(Words(b)) + post
      && (|b| > 0 && IsSlugChar(b[0]) ==> pre == "")
    ensures ReplaceRuns(s) == ("_" + pre) + JoinWords(Words(s)) + post
    ensures Words(s) != [] ==> pre == ""
  {
    var b := s[RunLength(s)..];
    SeparatorStep(s);
    assert "_" + (pre + JoinWords(Words(b)) + post) == ("_" + pre) + JoinWords(Words(b)) + post;
  }

  /** The step of `ReplaceRunsWords` past a leading word. */
  lemma WordCase(s: string, pre': string, post': string) returns (pre: string, post: string)
    requires |s| > 0 && IsSlugChar(s[0])
    requires Underscores(pre') && Underscores(post')
    requires var rest := s[WordLength(s)..];
      ReplaceRuns(rest) == pre' + JoinWords(Words(rest)) + post'
      && (|rest| > 0 && !IsSlugChar(rest[0]) && Words(rest) != [] ==> pre' == "_")
    ensures pre == "" && Underscores(post)
    ensures ReplaceRuns(s) == pre + JoinWords(Words(s)) + post
  {
    var n := WordLength(s);
    var w, rest := s[..n], s[n..];
    WordStep(s);
    pre := "";
    if Words(rest) == [] {
      post := pre' + post';
      LastWord(w, ReplaceRuns(rest), pre', post');
    } else {
      post := post';
      assert |rest| > 0 && !IsSlugChar(rest[0]);
      JoinCons(w, Words(rest));
      InnerWord(w, JoinWords(Words(rest)), post');
    }
  }

  lemma LastWord(w: string, r: string, pre: string, post: string)
    requires r == pre + JoinWords([]) + post
    ensures w + r == "" + JoinWords([w]) + (pre + post)
  {
  }

  lemma InnerWord(w: string, j: string, post: string)
    ensures w + ("_" + j + post) == "" + (w + "_" + j) + post
  {
  }

  /** Leading separators become one underscore and are no word. */
  lemma SeparatorStep(s: string)
    requires |s| > 0 && !IsSlugChar(s[0])
    ensures ReplaceRuns(s) == "_" + ReplaceRuns(s[RunLength(s)..])
    ensures Words(s) == Words(s[RunLength(s)..])
  {
  }

  /** A leading word is kept whole and is the first word. */
  lemma WordStep(s: string)
    requires |s| > 0 && IsSlugChar(s[0])
    ensures ReplaceRuns(s) == s[..WordLength(s)] + ReplaceRuns(s[WordLength(s)..])
    ensures Words(s) == [s[..WordLength(s)]] + Words(s[WordLength(s)..])
  {
    var n := WordLength(s);
    assert s == s[..n] + s[n..];
    ReplaceRunsWord(s[..n], s[n..]);
  }

  /** Joining a word before further words puts one underscore between. */
  lemma JoinCons(w: string, ws: seq<string>)
    requires ws != []
    ensures JoinWords([w] + ws) == w + "_" + JoinWords(ws)
  {
    assert ([w] + ws)[1..] == ws;
  }

  /** A word passes the replacement unchanged. */
  lemma {:induction false} ReplaceRunsWord(w: string, rest: string)
    requires forall i :: 0 <= i < |w| ==> IsSlugChar(w[i])
    ensures ReplaceRuns(w + rest) == w + ReplaceRuns(rest)
    decreases |w|
  {
    if |w| > 0 {
      assert (w + rest)[1..] == w[1..] + rest;
      ReplaceRunsWord(w[1..], rest);
      assert [w[0]] + (w[1..] + ReplaceRuns(rest)) == w + ReplaceRuns(rest);
    } else {
      assert w + rest == rest;
    }
  }

  /** Stripping underscores from around a middle that neither starts nor
      ends with one leaves the middle. */
  lemma StripFrame(pre: string, x: string, post: string)
    requires Underscores(pre) && Underscores(post)
    requires |x| > 0 && x[0] != '_' && x[|x| - 1] != '_'
    ensures Strip(pre + x + post) == x
  {
    var s := pre + x + post;
    var lo, hi := StripSlice(s);
    assert s[|pre|] == x[0];
    assert s[|pre| + |x| - 1] == x[|x| - 1];
    assert lo <= |pre| && |pre| + |x| <= hi;
    var r := Strip(s);
    assert r[0] == s[lo] && r[|r| - 1] == s[hi - 1];
    assert lo == |pre| && hi == |pre| + |x|;
    assert s[|pre|..|pre| + |x|] == x;
  }

  /** The slug of a name is its lower-cased words joined by single
      underscores, or "preset" when it has no word. */
  lemma SlugifyJoinsWords(text: string)
    ensures Words(Lower(text)) == [] ==> Slugify(text) == "preset"
    ensures Words(Lower(text)) != [] ==> Slugify(text) == JoinWords(Words(Lower(text)))
  {
    var ws := Words(Lower(text));
    var pre, post := ReplaceRunsWords(Lower(text));
    if ws != [] {
      JoinWordsSlug(ws);
      StripFrame(pre, JoinWords(ws), post);
    }
  }

  /** A name with nothing to keep falls back to "preset". */
  lemma SlugExampleFallback()
    ensures Slugify("!!") == "preset"
  {
    assert Alnums(Lower("!!")) == "";
  }
}
