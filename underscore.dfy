/** `Orchestrated.underscore` (lib/orchestrated/base.rb:20-25), the name of
    the scheduling method `belongs_to` defines: a chain of four string
    rewrites, restricted here to ASCII. Unlike the Rails method it was taken
    from, it has no rule splitting a lowercase letter from a following
    capital, so `FirstCompletion` becomes `firstcompletion`. */
module Underscore {

  predicate IsUpper(c: char) { 'A' <= c <= 'Z' }
  predicate IsLower(c: char) { 'a' <= c <= 'z' }

  /** No two adjacent colons. */
  predicate NoDoubleColon(s: string) {
    forall i :: 0 <= i < |s| - 1 ==> !(s[i] == ':' && s[i + 1] == ':')
  }

  predicate NoUpper(s: string) {
    forall i :: 0 <= i < |s| ==> !IsUpper(s[i])
  }

  predicate NoDash(s: string) {
    forall i :: 0 <= i < |s| ==> s[i] != '-'
  }

  /** No two capitals in a row. */
  predicate NoAcronym(s: string) {
    forall i :: 0 <= i < |s| - 1 ==> !(IsUpper(s[i]) && IsUpper(s[i + 1]))
  }

  /** `r` is `s` read from the left, with every pair of colons that starts
      where a match may start written as one `/` and every other character
      copied. */
  predicate ColonsReplaced(s: string, r: string)
    decreases |s|
  {
    if |s| == 0 then r == []
    else if |s| >= 2 && s[0] == ':' && s[1] == ':' then
      |r| > 0 && r[0] == '/' && ColonsReplaced(s[2..], r[1..])
    else
      |r| > 0 && r[0] == s[0] && ColonsReplaced(s[1..], r[1..])
  }

  /** `gsub(/::/, '/')`: pairs of colons, matched from the left without
      overlap, become slashes. */
  function ReplaceColons(s: string): (r: string)
    ensures ColonsReplaced(s, r)
    ensures |r| > 0 <==> |s| > 0
    ensures |s| > 0 ==> (r[0] == ':' <==> s[0] == ':' && !(|s| >= 2 && s[1] == ':'))
    ensures NoDoubleColon(r)
    ensures NoDoubleColon(s) ==> r == s
  {
    if |s| == 0 then []
    else if |s| >= 2 && s[0] == ':' && s[1] == ':' then ['/'] + ReplaceColons(s[2..])
    else
      var rest := ReplaceColons(s[1..]);
      assert |s| >= 2 ==> s[1..][0] == s[1];
      assert NoDoubleColon(s) ==> NoDoubleColon(s[1..]) by {
        if NoDoubleColon(s) {
          forall i | 0 <= i < |s[1..]| - 1
            ensures !(s[1..][i] == ':' && s[1..][i + 1] == ':')
          {
            assert s[1..][i] == s[i + 1] && s[1..][i + 1] == s[i + 2];
          }
        }
      }
      [s[0]] + rest
  }

  /** The end of the run of capitals that starts at `i`. */
  function RunEnd(s: string, i: nat): (k: nat)
    requires i <= |s|
    ensures i <= k <= |s|
    ensures forall j :: i <= j < k ==> IsUpper(s[j])
    ensures k < |s| ==> !IsUpper(s[k])
    decreases |s| - i
  {
    if i < |s| && IsUpper(s[i]) then RunEnd(s, i + 1) else i
  }

  /** `gsub(/([A-Z]+)([A-Z][a-z])/, '\1_\2')`. A match starts at the first
      capital of a run, takes the whole run and needs a lowercase letter
      right after it and at least two capitals in it; the `_` then goes
      before the run's last capital and scanning resumes after the
      lowercase letter. When the run is not followed by a lowercase letter
      no position inside it can start a match either. */
  function SplitAcronyms(s: string): string
    decreases |s|
  {
    if |s| == 0 then []
    else if !IsUpper(s[0]) then [s[0]] + SplitAcronyms(s[1..])
    else
      var k := RunEnd(s, 0);
      if 2 <= k < |s| && IsLower(s[k]) then
        s[..k - 1] + ['_'] + s[k - 1..k + 1] + SplitAcronyms(s[k + 1..])
      else
        s[..k] + SplitAcronyms(s[k..])
  }

  /** `tr("-", "_")`. */
  function Dashes(s: string): (r: string)
    ensures |r| == |s|
    ensures forall i :: 0 <= i < |s| ==> r[i] == (if s[i] == '-' then '_' else s[i])
  {
    seq(|s|, i requires 0 <= i < |s| => if s[i] == '-' then '_' else s[i])
  }

  function Lower(c: char): char {
    if IsUpper(c) then (c as int + 32) as char else c
  }

  /** `downcase`, on ASCII letters. */
  function Downcase(s: string): (r: string)
    ensures |r| == |s|
    ensures forall i :: 0 <= i < |s| ==> r[i] == Lower(s[i])
  {
    seq(|s|, i requires 0 <= i < |s| => Lower(s[i]))
  }

  function Underscore(s: string): string {
    Downcase(Dashes(SplitAcronyms(ReplaceColons(s))))
  }

  /** A capital that follows a capital and precedes a lowercase letter:
      the place where the acronym step must put an underscore. */
  predicate WordAfterAcronym(s: string, afterUpper: bool) {
    afterUpper && |s| >= 2 && IsUpper(s[0]) && IsLower(s[1])
  }

  /** `r` is `s` with `_` characters inserted, exactly one before every
      capital that follows a capital (`afterUpper` says whether the
      character before `s` is one) and precedes a lowercase letter, and
      nowhere else. The characters of `s` are consumed greedily. */
  predicate Inserted(s: string, r: string, afterUpper: bool)
    decreases |r|
  {
    if |r| == 0 then |s| == 0
    else if |s| > 0 && r[0] == s[0] then
      !WordAfterAcronym(s, afterUpper) && Inserted(s[1..], r[1..], IsUpper(r[0]))
    else
      && r[0] == '_' && afterUpper
      && |r| >= 3 && IsUpper(r[1]) && IsLower(r[2])
      && Inserted(s, r[1..], false)
  }

  /** One character of `s` passed through. */
  lemma Keep(s: string, r: string, b: bool)
    requires |s| > 0 && |r| > 0 && r[0] == s[0] && !WordAfterAcronym(s, b)
    requires Inserted(s[1..], r[1..], IsUpper(r[0]))
    ensures Inserted(s, r, b)
  {
  }

  /** One underscore inserted before a capital that starts a word. */
  lemma Insert(s: string, r: string)
    requires |r| >= 3 && r[0] == '_' && IsUpper(r[1]) && IsLower(r[2])
    requires |s| > 0 && s[0] == r[1]
    requires Inserted(s, r[1..], false)
    ensures Inserted(s, r, true)
  {
  }

  /** A run of capitals passed through in front of `s`; only a single
      capital not preceded by one may stand before a lowercase letter. */
  lemma {:induction false} CapitalsInserted(p: string, s: string, r: string, b: bool)
    requires |p| > 0 && forall i :: 0 <= i < |p| ==> IsUpper(p[i])
    requires Inserted(s, r, true)
    requires |s| > 0 && IsLower(s[0]) ==> |p| == 1 && !b
    ensures Inserted(p + s, p + r, b)
    decreases |p|
  {
    assert (p + s)[1..] == p[1..] + s && (p + r)[1..] == p[1..] + r;
    if |p| == 1 {
      assert p[1..] + s == s && p[1..] + r == r;
    } else {
      CapitalsInserted(p[1..], s, r, true);
      assert (p + s)[1] == p[1];
    }
    Keep(p + s, p + r, b);
  }

  /** The case of a run of capitals that ends a word: `AB` + `Cd...`
      becomes `AB` + `_Cd...`. */
  lemma SplitAtWord(s: string, k: nat, b: bool, tail: string)
    requires 2 <= k < |s| && IsLower(s[k])
    requires forall j :: 0 <= j < k ==> IsUpper(s[j])
    requires Inserted(s[k + 1..], tail, false)
    ensures Inserted(s, s[..k - 1] + ['_'] + s[k - 1..k + 1] + tail, b)
  {
    var r0 := ['_'] + ([s[k - 1]] + ([s[k]] + tail));
    WordStart(s[k - 1..], tail);
    assert s[k - 1..][2..] == s[k + 1..];
    CapitalsInserted(s[..k - 1], s[k - 1..], r0, b);
    assert s[..k - 1] + s[k - 1..] == s;
    assert s[k - 1..k + 1] == [s[k - 1], s[k]];
    assert s[..k - 1] + ['_'] + s[k - 1..k + 1] + tail == s[..k - 1] + r0;
  }

  /** `Cd...` with an underscore in front. */
  lemma WordStart(w: string, tail: string)
    requires |w| >= 2 && IsUpper(w[0]) && IsLower(w[1])
    requires Inserted(w[2..], tail, false)
    ensures Inserted(w, ['_'] + ([w[0]] + ([w[1]] + tail)), true)
  {
    var r2 := [w[1]] + tail;
    assert w[1..][1..] == w[2..] && r2[1..] == tail;
    Keep(w[1..], r2, true);
    var r1 := [w[0]] + r2;
    assert r1[1..] == r2;
    Keep(w, r1, false);
    var r0 := ['_'] + r1;
    assert r0[1..] == r1 && r0[1] == w[0] && r0[2] == w[1];
    Insert(w, r0);
  }

  /** The acronym step adds an underscore before every capital that follows
      a capital and precedes a lowercase letter, and adds nothing else.
      (`b`, whether a capital stands before `s`, is false at the start of
      the string and whenever `s` starts with a capital.) */
  lemma {:induction false} SplitAcronymsInserts(s: string, b: bool)
    requires b ==> |s| == 0 || !IsUpper(s[0])
    ensures Inserted(s, SplitAcronyms(s), b)
    decreases |s|
  {
    if |s| == 0 {
    } else if !IsUpper(s[0]) {
      var rest := SplitAcronyms(s[1..]);
      SplitAcronymsInserts(s[1..], false);
      assert SplitAcronyms(s) == [s[0]] + rest;
      assert ([s[0]] + rest)[1..] == rest;
      Keep(s, [s[0]] + rest, b);
    } else {
      var k := RunEnd(s, 0);
      if 2 <= k < |s| && IsLower(s[k]) {
        SplitAcronymsInserts(s[k + 1..], false);
        SplitAtWord(s, k, b, SplitAcronyms(s[k + 1..]));
      } else {
        SplitAcronymsInserts(s[k..], true);
        RunPassesThrough(s, k, b, SplitAcronyms(s[k..]));
      }
    }
  }

  /** A run of capitals that no lowercase letter follows (or a single
      capital) passes through unchanged. */
  lemma RunPassesThrough(s: string, k: nat, b: bool, tail: string)
    requires 1 <= k <= |s| && forall j :: 0 <= j < k ==> IsUpper(s[j])
    requires k < |s| ==> !IsUpper(s[k])
    requires !(2 <= k < |s| && IsLower(s[k]))
    requires b ==> !IsUpper(s[0])
    requires Inserted(s[k..], tail, true)
    ensures Inserted(s, s[..k] + tail, b)
  {
    CapitalsInserted(s[..k], s[k..], tail, b);
    assert s[..k] + s[k..] == s;
  }

  /** `Inserted` leaves no choice: the insertions are forced, so two
      results for the same string are equal. */
  lemma {:induction false} InsertedUnique(s: string, r1: string, r2: string, b: bool)
    requires Inserted(s, r1, b) && Inserted(s, r2, b)
    ensures r1 == r2
    decreases |r1|
  {
    if |r1| == 0 || |r2| == 0 {
    } else if |s| > 0 && r1[0] == s[0] && r2[0] == s[0] {
      InsertedUnique(s[1..], r1[1..], r2[1..], IsUpper(s[0]));
      assert r1 == [r1[0]] + r1[1..] && r2 == [r2[0]] + r2[1..];
    } else if |s| > 0 && r1[0] == s[0] {
      InsertedForcesWord(s, r2, b);
    } else if |s| > 0 && r2[0] == s[0] {
      InsertedForcesWord(s, r1, b);
    } else {
      InsertedUnique(s, r1[1..], r2[1..], false);
      assert r1 == [r1[0]] + r1[1..] && r2 == [r2[0]] + r2[1..];
    }
  }

  /** An inserted underscore stands where the acronym step must put one. */
  lemma InsertedForcesWord(s: string, r: string, b: bool)
    requires Inserted(s, r, b) && |s| > 0 && |r| > 0 && r[0] != s[0]
    ensures WordAfterAcronym(s, b)
  {
    var r1 := r[1..];
    assert Inserted(s, r1, false) && IsUpper(r1[0]);
    assert r1[0] == s[0];
    assert Inserted(s[1..], r1[1..], true);
    assert IsLower(r1[1]);
    assert |s| >= 2 && r1[1..][0] == s[1];
  }

  /** So the acronym step is the one string `Inserted` describes. */
  lemma SplitAcronymsIsInserted(s: string, r: string)
    requires Inserted(s, r, false)
    ensures r == SplitAcronyms(s)
  {
    SplitAcronymsInserts(s, false);
    InsertedUnique(s, r, SplitAcronyms(s), false);
  }

  /** And the `::` step is the one string `ColonsReplaced` describes. */
  lemma {:induction false} ColonsReplacedUnique(s: string, r1: string, r2: string)
    requires ColonsReplaced(s, r1) && ColonsReplaced(s, r2)
    ensures r1 == r2
    decreases |s|
  {
    if |s| == 0 {
    } else if |s| >= 2 && s[0] == ':' && s[1] == ':' {
      ColonsReplacedUnique(s[2..], r1[1..], r2[1..]);
      assert r1 == [r1[0]] + r1[1..] && r2 == [r2[0]] + r2[1..];
    } else {
      ColonsReplacedUnique(s[1..], r1[1..], r2[1..]);
      assert r1 == [r1[0]] + r1[1..] && r2 == [r2[0]] + r2[1..];
    }
  }

  predicate NoSlash(s: string) {
    forall i :: 0 <= i < |s| ==> s[i] != '/'
  }

  /** Writes every `/` back as `::`. */
  function RestoreColons(r: string): string
    decreases |r|
  {
    if |r| == 0 then []
    else if r[0] == '/' then "::" + RestoreColons(r[1..])
    else [r[0]] + RestoreColons(r[1..])
  }

  /** The `::` step loses nothing on a name without slashes: writing each
      `/` of its result back as `::` gives the name again. */
  lemma {:induction false} ColonsRoundTrip(s: string)
    requires NoSlash(s)
    ensures RestoreColons(ReplaceColons(s)) == s
    decreases |s|
  {
    if |s| == 0 {
    } else if |s| >= 2 && s[0] == ':' && s[1] == ':' {
      assert NoSlash(s[2..]) by {
        forall i | 0 <= i < |s[2..]| ensures s[2..][i] != '/' {
          assert s[2..][i] == s[i + 2];
        }
      }
      ColonsRoundTrip(s[2..]);
      var r := ReplaceColons(s);
      assert r == ['/'] + ReplaceColons(s[2..]);
      assert r[1..] == ReplaceColons(s[2..]);
      assert s == s[..2] + s[2..];
    } else {
      assert NoSlash(s[1..]) by {
        forall i | 0 <= i < |s[1..]| ensures s[1..][i] != '/' {
          assert s[1..][i] == s[i + 1];
        }
      }
      ColonsRoundTrip(s[1..]);
      var r := ReplaceColons(s);
      assert r == [s[0]] + ReplaceColons(s[1..]);
      assert r[0] == s[0] && r[1..] == ReplaceColons(s[1..]);
      assert s == [s[0]] + s[1..];
    }
  }

  /** Inserting underscores cannot put two colons side by side. */
  lemma {:induction false} InsertedKeepsNoDoubleColon(s: string, r: string, b: bool)
    requires Inserted(s, r, b) && NoDoubleColon(s)
    ensures NoDoubleColon(r)
    ensures |r| > 0 && r[0] == ':' ==> |s| > 0 && s[0] == ':'
    decreases |r|
  {
    if |r| > 0 {
      if |s| > 0 && r[0] == s[0] {
        assert NoDoubleColon(s[1..]) by {
          forall i | 0 <= i < |s[1..]| - 1
            ensures !(s[1..][i] == ':' && s[1..][i + 1] == ':')
          {
            assert s[1..][i] == s[i + 1] && s[1..][i + 1] == s[i + 2];
          }
        }
        InsertedKeepsNoDoubleColon(s[1..], r[1..], IsUpper(r[0]));
        forall i | 0 <= i < |r| - 1
          ensures !(r[i] == ':' && r[i + 1] == ':')
        {
          if i > 0 {
            assert r[i] == r[1..][i - 1] && r[i + 1] == r[1..][i];
          }
        }
      } else {
        InsertedKeepsNoDoubleColon(s, r[1..], false);
        forall i | 0 <= i < |r| - 1
          ensures !(r[i] == ':' && r[i + 1] == ':')
        {
          if i > 0 {
            assert r[i] == r[1..][i - 1] && r[i + 1] == r[1..][i];
          }
        }
      }
    }
  }

  /** Without capitals the acronym step changes nothing. */
  lemma {:induction false} SplitAcronymsFixed(s: string)
    requires NoUpper(s)
    ensures SplitAcronyms(s) == s
    decreases |s|
  {
    if |s| > 0 {
      assert NoUpper(s[1..]) by {
        forall i | 0 <= i < |s[1..]| ensures !IsUpper(s[1..][i]) {
          assert s[1..][i] == s[i + 1];
        }
      }
      SplitAcronymsFixed(s[1..]);
      assert s == [s[0]] + s[1..];
    }
  }

  /** What every name `underscore` produces looks like. */
  lemma UnderscoreShape(s: string)
    ensures NoUpper(Underscore(s)) && NoDash(Underscore(s)) && NoDoubleColon(Underscore(s))
  {
    var a := ReplaceColons(s);
    var b := SplitAcronyms(a);
    SplitAcronymsInserts(a, false);
    InsertedKeepsNoDoubleColon(a, b, false);
    var c := Dashes(b);
    var r := Downcase(c);
    assert NoDoubleColon(r) by {
      forall i | 0 <= i < |r| - 1
        ensures !(r[i] == ':' && r[i + 1] == ':')
      {
        assert r[i] == Lower(c[i]) && r[i + 1] == Lower(c[i + 1]);
      }
    }
  }

  /** A name already in that form is its own underscored name. */
  lemma UnderscoreFixed(s: string)
    requires NoUpper(s) && NoDash(s) && NoDoubleColon(s)
    ensures Underscore(s) == s
  {
    SplitAcronymsFixed(s);
    assert Dashes(s) == s;
    assert Downcase(s) == s;
  }

  /** So a string of lowercase letters, digits, `/` and `_` is unchanged. */
  lemma UnderscoreKeepsPlainNames(s: string)
    requires forall i :: 0 <= i < |s| ==>
               IsLower(s[i]) || '0' <= s[i] <= '9' || s[i] == '/' || s[i] == '_'
    ensures Underscore(s) == s
  {
    UnderscoreFixed(s);
  }

  /** And underscoring twice is underscoring once. */
  lemma UnderscoreIdempotent(s: string)
    ensures Underscore(Underscore(s)) == Underscore(s)
  {
    UnderscoreShape(s);
    UnderscoreFixed(Underscore(s));
  }

  /** Without two capitals in a row the acronym step changes nothing. */
  lemma {:induction false} SplitAcronymsKeepsWords(s: string)
    requires NoAcronym(s)
    ensures SplitAcronyms(s) == s
    decreases |s|
  {
    if |s| > 0 {
      assert NoAcronym(s[1..]) by {
        forall i | 0 <= i < |s[1..]| - 1
          ensures !(IsUpper(s[1..][i]) && IsUpper(s[1..][i + 1]))
        {
          assert s[1..][i] == s[i + 1] && s[1..][i + 1] == s[i + 2];
        }
      }
      SplitAcronymsKeepsWords(s[1..]);
      if IsUpper(s[0]) {
        assert RunEnd(s, 0) == 1 by {
          if |s| > 1 {
            assert RunEnd(s, 1) == 1;
          }
        }
        assert s[..1] + s[1..] == s;
      } else {
        assert [s[0]] + s[1..] == s;
      }
    }
  }

  /** Class names made of capitalised words, and nothing that the first
      three steps rewrite, are only downcased. */
  lemma UnderscoreOfWords(s: string)
    requires NoDoubleColon(s) && NoAcronym(s) && NoDash(s)
    ensures Underscore(s) == Downcase(s)
  {
    SplitAcronymsKeepsWords(s);
    assert Dashes(s) == s;
  }
}

/** Names `underscore` gives to some class names. Each name is a parameter
    fixed by the precondition, and each example is put together from a
    lemma per step, so that the solver never unfolds the whole chain on a
    string literal. */
module UnderscoreExamples {
  import opened Underscore

  /** The method name `belongs_to` defines on orchestrated classes. */
  lemma OrchestratedExample(name: string)
    requires name == "Orchestrated"
    ensures Underscore.Underscore(name) == "orchestrated"
  {
    OrchestratedPlain();
    UnderscoreOfWords(name);
    OrchestratedLowered(name);
  }

  /** No underscore between a lowercase letter and a capital. */
  lemma FirstCompletionExample(name: string)
    requires name == "FirstCompletion"
    ensures Underscore.Underscore(name) == "firstcompletion"
  {
    FirstCompletionPlain();
    UnderscoreOfWords(name);
    FirstCompletionLowered(name);
  }

  /** An acronym is split off the word that follows it. */
  lemma AcronymExample(name: string)
    requires name == "HTMLParser"
    ensures Underscore.Underscore(name) == "html_parser"
  {
    AcronymSplit(name);
    AcronymLowered("HTML_Parser");
  }

  lemma OrchestratedPlain()
    ensures NoDoubleColon("Orchestrated") && NoAcronym("Orchestrated") && NoDash("Orchestrated")
  {
  }

  lemma FirstCompletionPlain()
    ensures NoDoubleColon("FirstCompletion") && NoAcronym("FirstCompletion")
    ensures NoDash("FirstCompletion")
  {
  }

  lemma OrchestratedLowered(name: string)
    requires name == "Orchestrated"
    ensures Downcase(name) == "orchestrated"
  {
  }

  lemma FirstCompletionLowered(name: string)
    requires name == "FirstCompletion"
    ensures Downcase(name) == "firstcompletion"
  {
  }

  lemma AcronymSplit(name: string)
    requires name == "HTMLParser"
    ensures SplitAcronyms(ReplaceColons(name)) == "HTML_Parser"
  {
    AcronymRun();
    AcronymPieces();
    SplitAcronymsKeepsWords("rser");
  }

  lemma AcronymRun()
    ensures ReplaceColons("HTMLParser") == "HTMLParser" && RunEnd("HTMLParser", 0) == 5
  {
    AcronymNoColons("HTMLParser");
    AcronymRunEnd("HTMLParser");
  }

  lemma AcronymNoColons(s: string)
    requires s == "HTMLParser"
    ensures ReplaceColons(s) == s
  {
    assert NoDoubleColon(s);
  }

  lemma AcronymRunEnd(s: string)
    requires s == "HTMLParser"
    ensures RunEnd(s, 0) == 5
  {
    var k := RunEnd(s, 0);
    assert IsUpper(s[4]) && !IsUpper(s[5]);
  }

  lemma AcronymPieces()
    ensures "HTMLParser"[..4] + ['_'] + "HTMLParser"[4..6] + "HTMLParser"[6..] == "HTML_Parser"
    ensures "HTMLParser"[6..] == "rser" && NoAcronym("rser")
  {
  }

  lemma AcronymLowered(w: string)
    requires w == "HTML_Parser"
    ensures Downcase(Dashes(w)) == "html_parser"
  {
    assert Dashes(w) == w;
  }
}
