/** The heuristic that decides whether a model's reply admits it lacks
    information, so that a web search and a second query are worth making:
    a case-insensitive substring match against a fixed list of phrases. */
module SearchTrigger {

  import opened Js

  /** `toLowerCase` on one character, restricted to ASCII letters. */
  function LowerChar(c: char): char
  {
    if 'A' <= c <= 'Z' then (c as int + 32) as char else c
  }

  /** `toUpperCase` on one character, restricted to ASCII letters. */
  function UpperChar(c: char): char
  {
    if 'a' <= c <= 'z' then (c as int - 32) as char else c
  }

  predicate IsUpperLetter(c: char)
  {
    'A' <= c <= 'Z'
  }

  predicate IsLowerLetter(c: char)
  {
    'a' <= c <= 'z'
  }

  /** Lower-casing keeps the length, leaves no capital letter, and changes
      nothing but capital letters, each into the same letter in lower case. */
  function Lower(s: string): (r: string)
    ensures |r| == |s|
    ensures forall i :: 0 <= i < |r| ==> !IsUpperLetter(r[i])
    ensures forall i :: 0 <= i < |s| ==>
      r[i] == s[i] || (IsUpperLetter(s[i]) && r[i] as int == s[i] as int + 32)
  {
    seq(|s|, i requires 0 <= i < |s| => LowerChar(s[i]))
  }

  /** Upper-casing keeps the length, leaves no small letter, and changes
      nothing but small letters, each into the same letter in upper case. */
  function Upper(s: string): (r: string)
    ensures |r| == |s|
    ensures forall i :: 0 <= i < |r| ==> !IsLowerLetter(r[i])
    ensures forall i :: 0 <= i < |s| ==>
      r[i] == s[i] || (IsLowerLetter(s[i]) && r[i] as int == s[i] as int - 32)
  {
    seq(|s|, i requires 0 <= i < |s| => UpperChar(s[i]))
  }

  /** Lower-casing forgets case: it is idempotent, and upper-casing first
      makes no difference. */
  lemma CaseFolding(s: string)
    ensures Lower(Lower(s)) == Lower(s)
    ensures Lower(Upper(s)) == Lower(s)
  {
  }

  /** The sixteen phrases, all lower-case, in the order the worker lists them. */
  const Keywords: seq<string> := [
    "search:",
    "i don't have access",
    "i do not have access",
    "i'm unable to browse",
    "i can't browse",
    "i cannot browse",
    "unable to access",
    "there is no information",
    "no information available",
    "no knowledge of",
    "unable to provide",
    "can't find",
    "don't know",
    "cannot retrieve",
    "sorry, i don't have",
    "no data available"
  ]

  /** `shouldTriggerSearch`: an empty reply never triggers; otherwise
      `keywords.some(k => lowerText.includes(k))` on the lower-cased reply. */
  predicate ShouldTriggerSearch(reply: string)
  {
    reply != [] && exists j :: 0 <= j < |Keywords| && Includes(Lower(reply), Keywords[j])
  }

  /** A reply occurrence of phrase `j` of the list, in the lower-cased reply. */
  predicate PhraseAt(reply: string, j: int, i: int)
  {
    0 <= j < |Keywords| && OccursAt(Lower(reply), Keywords[j], i)
  }

  /** The search triggers exactly when some listed phrase occurs somewhere in
      the lower-cased reply; the empty reply never triggers. */
  lemma ShouldTriggerIff(reply: string)
    ensures ShouldTriggerSearch(reply) <==> exists j, i :: PhraseAt(reply, j, i)
    ensures reply == [] ==> !ShouldTriggerSearch(reply)
  {
    assert "" !in Keywords;
    if exists j, i :: PhraseAt(reply, j, i) {
      var j, i :| PhraseAt(reply, j, i);
      assert Keywords[j] in Keywords;
      assert Includes(Lower(reply), Keywords[j]);
    }
    if ShouldTriggerSearch(reply) {
      var j :| 0 <= j < |Keywords| && Includes(Lower(reply), Keywords[j]);
      var i :| 0 <= i <= |reply| - |Keywords[j]| && OccursAt(Lower(reply), Keywords[j], i);
      assert PhraseAt(reply, j, i);
    }
  }

  /** The search triggers exactly when the lower-cased reply splits into some
      text, one of the listed phrases, and some more text. */
  lemma ShouldTriggerSplits(reply: string)
    ensures ShouldTriggerSearch(reply) <==>
      exists j, a, b :: 0 <= j < |Keywords| && Lower(reply) == a + Keywords[j] + b
  {
    var t := Lower(reply);
    ShouldTriggerIff(reply);
    if ShouldTriggerSearch(reply) {
      var j, i :| PhraseAt(reply, j, i);
      var k := Keywords[j];
      assert t == t[..i] + k + t[i + |k|..];
    }
    if exists j, a, b :: 0 <= j < |Keywords| && t == a + Keywords[j] + b {
      var j, a, b :| 0 <= j < |Keywords| && t == a + Keywords[j] + b;
      var k := Keywords[j];
      assert t[|a|..|a| + |k|] == k;
      assert PhraseAt(reply, j, |a|);
    }
  }

  /** Case does not matter: an upper-cased reply triggers exactly when the
      reply does. */
  lemma TriggerIgnoresCase(reply: string)
    ensures ShouldTriggerSearch(Upper(reply)) == ShouldTriggerSearch(reply)
  {
    CaseFolding(reply);
  }

  /** Lower-casing works character by character. */
  lemma LowerAppend(a: string, b: string)
    ensures Lower(a + b) == Lower(a) + Lower(b)
  {
    assert forall i :: 0 <= i < |a + b| ==> Lower(a + b)[i] == (Lower(a) + Lower(b))[i];
  }

  /** A triggering reply keeps triggering whatever text surrounds it. */
  lemma TriggerInContext(before: string, reply: string, after: string)
    requires ShouldTriggerSearch(reply)
    ensures ShouldTriggerSearch(before + reply + after)
  {
    ShouldTriggerIff(reply);
    var j, i :| PhraseAt(reply, j, i);
    PhraseInContext(before, reply, after, j, i);
    ShouldTriggerIff(before + reply + after);
  }

  /** An occurrence of a phrase in the reply is one in the surrounding text,
      shifted by the text before it. */
  lemma PhraseInContext(before: string, reply: string, after: string, j: int, i: int)
    requires PhraseAt(reply, j, i)
    ensures PhraseAt(before + reply + after, j, |before| + i)
  {
    var k := Keywords[j];
    LowerAppend(before, reply);
    LowerAppend(before + reply, after);
    var lw := Lower(before + reply + after);
    assert lw[|before| + i..|before| + i + |k|] == Lower(reply)[i..i + |k|];
  }

  /** A phrase holding a character outside the alphabet of the text does
      not occur in it. */
  lemma MissingChar(t: string, alphabet: set<char>, k: string, p: nat)
    requires forall i :: 0 <= i < |t| ==> t[i] in alphabet
    requires p < |k| && k[p] !in alphabet
    ensures !Includes(t, k)
  {
  }

  /** The characters of the lower-cased sentinel for an unknown model. */
  const SentinelAlphabet: set<char> := {'u', 'n', 'k', 'o', 'w', 'm', 'd', 'e', 'l', 's', 'c', 't', ' '}

  lemma SentinelLetters()
    ensures forall i :: 0 <= i < |Lower("Unknown model selected")| ==>
      Lower("Unknown model selected")[i] in SentinelAlphabet
  {
  }

  /** The sentinel for an unrecognised model never triggers a search: every
      phrase holds a character the lower-cased sentinel lacks. */
  lemma UnknownModelDoesNotTrigger()
    ensures !ShouldTriggerSearch("Unknown model selected")
  {
    SentinelLetters();
    SentinelGapsLeave();
    NoPhraseOverAlphabet(Lower("Unknown model selected"), SentinelAlphabet, SentinelGaps);
  }

  /** The phrases one by one. */
  lemma KeywordsSpelled()
    ensures |Keywords| == 16
    ensures Keywords[0] == "search:"
    ensures Keywords[1] == "i don't have access"
    ensures Keywords[2] == "i do not have access"
    ensures Keywords[3] == "i'm unable to browse"
    ensures Keywords[4] == "i can't browse"
    ensures Keywords[5] == "i cannot browse"
    ensures Keywords[6] == "unable to access"
    ensures Keywords[7] == "there is no information"
    ensures Keywords[8] == "no information available"
    ensures Keywords[9] == "no knowledge of"
    ensures Keywords[10] == "unable to provide"
    ensures Keywords[11] == "can't find"
    ensures Keywords[12] == "don't know"
    ensures Keywords[13] == "cannot retrieve"
    ensures Keywords[14] == "sorry, i don't have"
    ensures Keywords[15] == "no data available"
  {
  }

  /** Every phrase `Keywords[j]` holds, at index `gaps[j]`, a character
      outside `alphabet`. */
  predicate PhrasesLeave(alphabet: set<char>, gaps: seq<nat>)
  {
    && |gaps| == |Keywords|
    && forall j :: 0 <= j < |Keywords| ==>
         gaps[j] < |Keywords[j]| && Keywords[j][gaps[j]] !in alphabet
  }

  /** No phrase occurs in a text written with an alphabet that every phrase
      leaves. */
  lemma NoPhraseOverAlphabet(t: string, alphabet: set<char>, gaps: seq<nat>)
    requires forall i :: 0 <= i < |t| ==> t[i] in alphabet
    requires PhrasesLeave(alphabet, gaps)
    ensures forall j :: 0 <= j < |Keywords| ==> !Includes(t, Keywords[j])
  {
    forall j | 0 <= j < |Keywords| ensures !Includes(t, Keywords[j]) {
      MissingChar(t, alphabet, Keywords[j], gaps[j]);
    }
  }

  /** For each phrase, the index of a character the sentinel lacks. */
  const SentinelGaps: seq<nat> := [2, 0, 0, 0, 0, 0, 2, 1, 3, 10, 2, 1, 3, 1, 2, 4]

  lemma SentinelGapsLeave()
    ensures PhrasesLeave(SentinelAlphabet, SentinelGaps)
  {
    KeywordsSpelled();
  }

  /** A reply that disclaims access, in any case, triggers the search. */
  lemma DisclaimerTriggers()
    ensures ShouldTriggerSearch("I don't have access to real-time data")
  {
    var reply := "I don't have access to real-time data";
    var head := "I don't have access";
    assert reply == head + " to real-time data";
    assert Lower(head) == "i don't have access";
    assert Lower(reply)[..19] == Lower(head);
    KeywordsSpelled();
    assert PhraseAt(reply, 1, 0);
    ShouldTriggerIff(reply);
  }
}
