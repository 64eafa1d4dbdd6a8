/**
 What the verdicts of the live probe mean in terms of texts and fields: the words of a status, the field names that count,
 the parts of the document and of the inventory that are looked at.
 */
module LiveProbeReadings {
  import opened Common
  import opened JsonValues
  import opened OpenapiSchema
  import opened RequestBody
  import opened ProbeSettings
  import opened LiveProbeVerdicts

  /* ---------- Texts ---------- */

  /** The text has p somewhere. */
  ghost predicate Occurs(s: string, p: string) {
    exists i :: 0 <= i <= |s| && p <= s[i..]
  }

  lemma {:induction false} ContainsIff(s: string, p: string)
    ensures Contains(s, p) <==> Occurs(s, p)
  {
    assert s[0..] == s;
    if s != "" {
      ContainsIff(s[1..], p);
      if i :| 0 <= i <= |s[1..]| && p <= s[1..][i..] { assert s[i + 1..] == s[1..][i..]; }
      if i :| 0 <= i <= |s| && p <= s[i..] && !(p <= s) { assert s[1..][i - 1..] == s[i..]; }
    }
  }

  predicate IsBlank(s: string) { forall i :: 0 <= i < |s| ==> IsSpace(s[i]) }

  /** t is s without the spaces around it. */
  predicate IsTrimmed(s: string, t: string) {
    && (t != "" ==> !IsSpace(t[0]) && !IsSpace(t[|t| - 1]))
    && exists i :: 0 <= i <= |s| - |t| && s[i..i + |t|] == t && IsBlank(s[..i]) && IsBlank(s[i + |t|..])
  }

  lemma {:induction false} TrimLeftIs(s: string) returns (i: nat)
    ensures i <= |s| && TrimLeft(s) == s[i..] && IsBlank(s[..i]) && (TrimLeft(s) != "" ==> !IsSpace(TrimLeft(s)[0]))
  {
    hide IsSpace;
    i := 0;
    if s != "" && IsSpace(s[0]) {
      var k := TrimLeftIs(s[1..]);
      i := k + 1;
      assert s[1..][k..] == s[i..];
      forall j | 0 <= j < i ensures IsSpace(s[..i][j]) { if j > 0 { assert s[..i][j] == s[1..][..k][j - 1]; } }
    }
  }

  lemma {:induction false} TrimRightIs(s: string)
    ensures var t := TrimRight(s); t <= s && IsBlank(s[|t|..]) && (t != "" ==> !IsSpace(t[|t| - 1]))
  {
    hide IsSpace;
    if s != "" && IsSpace(s[|s| - 1]) {
      var init := s[..|s| - 1];
      TrimRightIs(init);
      var t := TrimRight(init);
      forall j | 0 <= j < |s[|t|..]| ensures IsSpace(s[|t|..][j]) {
        if j < |init| - |t| { assert s[|t|..][j] == init[|t|..][j]; }
      }
    }
  }

  lemma TrimIs(s: string)
    ensures IsTrimmed(s, Trim(s))
  {
    hide IsSpace;
    var i := TrimLeftIs(s);
    var left := TrimLeft(s);
    TrimRightIs(left);
    var t := Trim(s);
    assert left[..|t|] == t;
    assert s[i..i + |t|] == t && s[i + |t|..] == left[|t|..];
    if t != "" { assert t[0] == left[0]; }
  }

  /** Characters i to j are a whole word: letters and digits that no further one adjoins. */
  predicate IsWord(s: string, i: nat, j: nat) {
    && i < j <= |s|
    && (forall k :: i <= k < j ==> IsWordChar(s[k]))
    && (i > 0 ==> !IsWordChar(s[i - 1])) && (j < |s| ==> !IsWordChar(s[j]))
  }

  ghost predicate HasWord(s: string, w: string) {
    exists i: nat, j: nat :: i < j <= |s| && IsWord(s, i, j) && s[i..j] == w
  }

  predicate AllWordChars(s: string) { forall k :: 0 <= k < |s| ==> IsWordChar(s[k]) }

  lemma {:induction false} WordsAre(s: string, begun: string, w: string)
    requires AllWordChars(begun)
    ensures w in Words(s, begun) <==> HasWord(begun + s, w)
    decreases |s|
  {
    hide IsWordChar, HasWord;
    if s == "" {
      OneWord(begun, w);
      assert begun + s == begun;
    } else if IsWordChar(s[0]) {
      WordsAre(s[1..], begun + [s[0]], w);
      assert begun + [s[0]] + s[1..] == begun + s;
    } else {
      WordsAre(s[1..], "", w);
      assert "" + s[1..] == s[1..];
      WordsPastBreak(begun, s[0], s[1..], w);
      assert begun + [s[0]] + s[1..] == begun + s;
    }
  }

  lemma OneWord(begun: string, w: string)
    requires AllWordChars(begun)
    ensures HasWord(begun, w) <==> begun != "" && w == begun
  {
    hide IsWordChar;
    if begun != "" { assert IsWord(begun, 0, |begun|) && begun[0..|begun|] == begun; }
    if i: nat, j: nat :| i < j <= |begun| && IsWord(begun, i, j) && begun[i..j] == w { WholeWord(begun, i, j, |begun|); }
  }

  /** A word that starts among the first n characters, which are all of words, is those n. */
  lemma WholeWord(t: string, i: nat, j: nat, n: nat)
    requires IsWord(t, i, j) && i < n <= |t| && (forall k :: 0 <= k < n ==> IsWordChar(t[k]))
    requires n < |t| ==> !IsWordChar(t[n])
    ensures i == 0 && j == n
  {
    hide IsWordChar;
  }

  lemma ShiftedWord(t: string, rest: string, n: nat, i: nat, j: nat)
    requires n <= |t| && t[n..] == rest && i < j <= |rest|
    requires n > 0 ==> !IsWordChar(t[n - 1])
    ensures IsWord(t, n + i, n + j) <==> IsWord(rest, i, j)
    ensures t[n + i..n + j] == rest[i..j]
  {
    hide IsWordChar;
    assert forall k :: 0 <= k < |rest| ==> rest[k] == t[n + k];
    if IsWord(t, n + i, n + j) {
      forall k | i <= k < j ensures IsWordChar(rest[k]) { assert IsWordChar(t[n + k]); }
      assert i > 0 ==> rest[i - 1] == t[n + i - 1];
    }
    if IsWord(rest, i, j) {
      forall k | n + i <= k < n + j ensures IsWordChar(t[k]) { assert t[k] == rest[k - n]; }
      assert i > 0 ==> rest[i - 1] == t[n + i - 1];
    }
  }

  lemma WordsPastBreak(begun: string, c: char, rest: string, w: string)
    requires AllWordChars(begun) && !IsWordChar(c)
    ensures HasWord(begun + [c] + rest, w) <==> (begun != "" && w == begun) || HasWord(rest, w)
  {
    hide IsWordChar, IsWord;
    var t, n := begun + [c] + rest, |begun|;
    assert t[n] == c && t[n + 1..] == rest && t[0..n] == begun;
    if begun != "" { FirstWord(begun, c, rest); }
    if i: nat, j: nat :| i < j <= |rest| && IsWord(rest, i, j) && rest[i..j] == w {
      WordIsInside(rest, i, j);
      ShiftedWord(t, rest, n + 1, i, j);
    }
    if i: nat, j: nat :| i < j <= |t| && IsWord(t, i, j) && t[i..j] == w {
      WordIsInside(t, i, j);
      if i < n {
        WholeWord(t, i, j, n);
      } else {
        assert i > n;
        ShiftedWord(t, rest, n + 1, i - n - 1, j - n - 1);
      }
    }
  }

  lemma FirstWord(begun: string, c: char, rest: string)
    requires AllWordChars(begun) && !IsWordChar(c) && begun != ""
    ensures IsWord(begun + [c] + rest, 0, |begun|)
  {
    hide IsWordChar;
  }

  lemma WordIsInside(t: string, i: nat, j: nat)
    requires IsWord(t, i, j)
    ensures i < j <= |t| && IsWordChar(t[i])
  {
    hide IsWordChar;
  }

  /** The text has one of the words. */
  ghost predicate HasOneOf(text: string, words: seq<string>) { exists w :: w in words && HasWord(text, w) }

  /** A status is positive: the value true, or a text with one of five words and none of nine. */
  lemma PositiveIff(j: Json)
    ensures Positive(j) <==>
            || j == Bool(true)
            || (j.Str?
                && HasOneOf(Upper(j.s), ["PASS", "PASSED", "SUCCESS", "OK", "TRUE"])
                && !HasOneOf(Upper(j.s), ["FAIL", "FAILED", "FALSE", "NO", "NOT", "BLOCKED", "ERROR", "DENIED", "REJECTED"]))
  {
    if j.Str? {
      hide HasWord, Words, Upper, IsPositiveWord, IsNegativeWord;
      var text := Upper(j.s);
      forall w
        ensures w in Words(text, "") <==> HasWord(text, w)
        ensures IsPositiveWord(w) <==> w in ["PASS", "PASSED", "SUCCESS", "OK", "TRUE"]
        ensures IsNegativeWord(w) <==> w in ["FAIL", "FAILED", "FALSE", "NO", "NOT", "BLOCKED", "ERROR", "DENIED", "REJECTED"]
      {
        WordsAre(text, "", w);
        assert "" + text == text;
        StatusWords(w);
      }
    }
  }

  lemma StatusWords(w: string)
    ensures IsPositiveWord(w) <==> w in ["PASS", "PASSED", "SUCCESS", "OK", "TRUE"]
    ensures IsNegativeWord(w) <==> w in ["FAIL", "FAILED", "FALSE", "NO", "NOT", "BLOCKED", "ERROR", "DENIED", "REJECTED"]
  {
  }

  /** A denial is the value false, or one of four texts, spaces and case aside. */
  lemma DeniesIff(j: Json)
    ensures Denies(j) <==>
            || j == Bool(false)
            || (j.Str? && (Upper(Trim(j.s)) == "FALSE" || Upper(Trim(j.s)) == "NONE" || Upper(Trim(j.s)) == "NO"
                           || Upper(Trim(j.s)) == "BLOCKED"))
  {
    hide Trim, Upper;
  }

  /* ---------- Characters and mentions ---------- */

  /** Capitals, small letters and spaces are those of ASCII. */
  lemma CharactersAre(c: char)
    ensures 'a' <= c <= 'z' ==> UpperChar(c) as int == c as int - 32
    ensures 'A' <= c <= 'Z' ==> LowerChar(c) as int == c as int + 32
    ensures !('a' <= c <= 'z') ==> UpperChar(c) == c
    ensures !('A' <= c <= 'Z') ==> LowerChar(c) == c
    ensures IsSpace(c) <==> c as int in {9, 10, 11, 12, 13, 28, 29, 30, 31, 32}
    ensures IsWordChar(c) <==> 65 <= c as int <= 90 || 48 <= c as int <= 57
  {
  }

  function HexValue(c: char): int {
    if '0' <= c <= '9' then c as int - '0' as int else if 'a' <= c <= 'f' then c as int - 'a' as int + 10 else -1
  }

  /** JSON text escapes quotes, backslashes and control characters, five of them by a letter, and nothing else. */
  lemma EscapeIs(c: char)
    ensures var e := EscapedChar(c);
            && (c as int >= 32 && c != '"' && c != '\\' ==> e == [c])
            && (c == '"' || c == '\\' ==> e == ['\\', c])
            && (c as int == 8 ==> e == ['\\', 'b']) && (c as int == 9 ==> e == ['\\', 't'])
            && (c as int == 10 ==> e == ['\\', 'n']) && (c as int == 12 ==> e == ['\\', 'f'])
            && (c as int == 13 ==> e == ['\\', 'r'])
            && (c as int < 32 && c as int !in {8, 9, 10, 12, 13} ==>
                  && |e| == 6 && e[..4] == ['\\', 'u', '0', '0']
                  && 0 <= HexValue(e[4]) < 16 && 0 <= HexValue(e[5]) < 16 && HexValue(e[4]) * 16 + HexValue(e[5]) == c as int)
  {
  }

  lemma {:induction false} EscapesJoin(a: string, b: string)
    ensures Escaped(a + b) == Escaped(a) + Escaped(b)
  {
    hide EscapedChar;
    if a == "" {
      assert a + b == b;
    } else {
      assert (a + b)[1..] == a[1..] + b;
      EscapesJoin(a[1..], b);
    }
  }

  /** Every key and every string of a value. */
  function TextsOf(j: Json): seq<string> {
    match j
    case Str(s) => [s]
    case Obj(fields) => TextsOfFields(fields)
    case Arr(items) => TextsOfItems(items)
    case _ => []
  }

  function TextsOfFields(f: Fields): seq<string> {
    if f.NoFields? then [] else [f.key] + TextsOf(f.value) + TextsOfFields(f.rest)
  }

  function TextsOfItems(items: Items): seq<string> {
    if items.NoItems? then [] else TextsOf(items.head) + TextsOfItems(items.tail)
  }

  ghost predicate OneSays(texts: seq<string>, word: string) { exists s :: s in texts && Says(s, word) }

  lemma OneSaysInTwo(a: seq<string>, b: seq<string>, word: string)
    ensures OneSays(a + b, word) <==> OneSays(a, word) || OneSays(b, word)
  {
    hide Says;
    if s :| s in a && Says(s, word) { assert s in a + b; }
    if s :| s in b && Says(s, word) { assert s in a + b; }
  }

  lemma OneSaysOne(s: string, word: string)
    ensures OneSays([s], word) <==> Says(s, word)
  {
    hide Says;
    assert s in [s];
  }

  /** A value mentions a word exactly if one of its keys or strings does. */
  lemma {:induction false} MentionsIff(j: Json, word: string)
    ensures Mentions(j, word) <==> OneSays(TextsOf(j), word)
    decreases j, 0
  {
    hide Says, OneSays;
    match j
    case Str(s) => OneSaysOne(s, word);
    case Obj(fields) => FieldsMentionIff(fields, word);
    case Arr(items) => ItemsMentionIff(items, word);
    case _ => NoneSays(word);
  }

  lemma NoneSays(word: string)
    ensures !OneSays([], word)
  {
  }

  lemma {:induction false} FieldsMentionIff(f: Fields, word: string)
    ensures MentionsInFields(f, word) <==> OneSays(TextsOfFields(f), word)
    decreases f, 0
  {
    hide Says, OneSays;
    NoneSays(word);
    if f.Field? {
      MentionsIff(f.value, word);
      FieldsMentionIff(f.rest, word);
      OneSaysOne(f.key, word);
      OneSaysInTwo([f.key], TextsOf(f.value), word);
      OneSaysInTwo([f.key] + TextsOf(f.value), TextsOfFields(f.rest), word);
    }
  }

  lemma {:induction false} ItemsMentionIff(items: Items, word: string)
    ensures MentionsInItems(items, word) <==> OneSays(TextsOfItems(items), word)
    decreases items, 0
  {
    hide Says, OneSays;
    NoneSays(word);
    if items.Item? {
      MentionsIff(items.head, word);
      ItemsMentionIff(items.tail, word);
      OneSaysInTwo(TextsOf(items.head), TextsOfItems(items.tail), word);
    }
  }

  /** A string says a word exactly if the word occurs in its JSON text, whatever the case of either. */
  lemma SaysIff(s: string, word: string)
    ensures Says(s, word) <==> Occurs(Lower(Escaped(s)), Lower(word))
    ensures |Lower(s)| == |s| && |Upper(s)| == |s|
    ensures forall i :: 0 <= i < |s| ==> Lower(s)[i] == LowerChar(s[i]) && Upper(s)[i] == UpperChar(s[i])
  {
    ContainsIff(Lower(Escaped(s)), Lower(word));
    hide Contains, Occurs, Escaped, LowerChar, UpperChar;
  }

  /* ---------- Fields ---------- */

  /** An object somewhere in the value has v under a key that contains one of the words. */
  ghost predicate ShowsUnder(j: Json, words: seq<string>, v: Json) {
    exists f :: f in Objects(j) && Shows(f, words, v)
  }

  ghost predicate ShowsPositive(j: Json, words: seq<string>) { exists v :: ShowsUnder(j, words, v) && Positive(v) }

  ghost predicate ShowsDenial(j: Json, words: seq<string>) { exists v :: ShowsUnder(j, words, v) && Denies(v) }

  ghost predicate ShowsAny(j: Json, words: seq<string>) { exists v :: ShowsUnder(j, words, v) }

  lemma MatchesIff(key: string, words: seq<string>)
    ensures Matches(key, words) <==> exists i :: 0 <= i < |words| && Occurs(NormalizeKey(key), words[i])
  {
    hide Occurs, NormalizeKey, Contains;
    forall p ensures Contains(NormalizeKey(key), p) <==> Occurs(NormalizeKey(key), p) { ContainsIff(NormalizeKey(key), p); }
  }

  lemma FoundUnder(j: Json, words: seq<string>, v: Json)
    ensures v in Find(j, words) <==> ShowsUnder(j, words, v)
  {
    FoundIffShown(j, words, v);
    if ShowsUnder(j, words, v) {
      var f :| f in Objects(j) && Shows(f, words, v);
      assert exists g :: g in Objects(j) && Shows(g, words, v);
    }
  }

  lemma FoundIsShown(j: Json, words: seq<string>)
    ensures AnyPass(j, words) <==> ShowsPositive(j, words)
    ensures AnyFalse(j, words) <==> ShowsDenial(j, words)
    ensures Find(j, words) != [] <==> ShowsAny(j, words)
  {
    hide Find, Positive, Denies, ShowsUnder;
    forall v ensures v in Find(j, words) <==> ShowsUnder(j, words, v) { FoundUnder(j, words, v); }
    if Find(j, words) != [] { assert Find(j, words)[0] in Find(j, words); }
    if v :| ShowsUnder(j, words, v) { assert v in Find(j, words); }
  }

  /** The provider is proved by four fields or words of one reply. */
  lemma ProbeProvenIff(provider: Provider, reply: Json)
    ensures ProbeProven(provider, reply) <==>
            && ShowsPositive(reply, ["result", "success", "status", "probe", "reachable", "healthy"])
            && ShowsPositive(reply, ["loopbackonly"]) && ShowsDenial(reply, ["secretvaluereturned"])
            && Mentions(reply, match provider case Ollama => "ollama" case OpenaiCompatible => "openai_compatible")
  {
    hide AnyPass, AnyFalse, ShowsPositive, ShowsDenial, Mentions;
    FoundIsShown(reply, ["result", "success", "status", "probe", "reachable", "healthy"]);
    FoundIsShown(reply, ["loopbackonly"]);
    FoundIsShown(reply, ["secretvaluereturned"]);
  }

  ghost predicate OneOfPositive(words: seq<string>, a: Json, b: Json, c: Json) {
    ShowsPositive(a, words) || ShowsPositive(b, words) || ShowsPositive(c, words)
  }

  ghost predicate OneOfDenying(words: seq<string>, a: Json, b: Json, c: Json) {
    ShowsDenial(a, words) || ShowsDenial(b, words) || ShowsDenial(c, words)
  }

  ghost predicate OneOfShowing(words: seq<string>, a: Json, b: Json, c: Json) {
    ShowsAny(a, words) || ShowsAny(b, words) || ShowsAny(c, words)
  }

  lemma TopicIs(topic: Topic, a: Json, b: Json, c: Json)
    ensures OnePasses(topic, a, b, c) <==> OneOfPositive(Patterns(topic), a, b, c)
    ensures OneDenies(topic, a, b, c) <==> OneOfDenying(Patterns(topic), a, b, c)
    ensures OneShows(topic, a, b, c) <==> OneOfShowing(Patterns(topic), a, b, c)
  {
    hide *;
    OnePassesUnfolds(topic, a, b, c);
    OneDeniesUnfolds(topic, a, b, c);
    OneShowsUnfolds(topic, a, b, c);
    OneOfUnfolds(Patterns(topic), a, b, c);
    FoundIsShown(a, Patterns(topic));
    FoundIsShown(b, Patterns(topic));
    FoundIsShown(c, Patterns(topic));
  }

  lemma OneOfUnfolds(words: seq<string>, a: Json, b: Json, c: Json)
    ensures OneOfPositive(words, a, b, c) == (ShowsPositive(a, words) || ShowsPositive(b, words) || ShowsPositive(c, words))
    ensures OneOfDenying(words, a, b, c) == (ShowsDenial(a, words) || ShowsDenial(b, words) || ShowsDenial(c, words))
    ensures OneOfShowing(words, a, b, c) == (ShowsAny(a, words) || ShowsAny(b, words) || ShowsAny(c, words))
  {
    hide ShowsPositive, ShowsDenial, ShowsAny;
  }

  lemma NamesOfTopics()
    ensures Patterns(AstSafety) == ["astsafety", "astgate", "safetygate"]
    ensures Patterns(ArgvTests) == ["directargv", "tests", "testresult", "teststatus"]
    ensures Patterns(UnifiedDiff) == ["unifieddiff", "diff"]
    ensures Patterns(SourceApply) == ["sourceapply", "applyavailable", "applyallowed"]
    ensures Patterns(HumanReview) == ["humanreviewrequired"]
    ensures Text(ApplyIsBlocked) == "source_apply_blocked"
    ensures Text(NeedsSeparateAuthorization) == "BLOCKED_REQUIRES_SEPARATE_CANDIDATE_AUTHORIZATION"
    ensures Text(ReviewIsRequired) == "HUMAN_REVIEW_REQUIRED"
  {
  }

  /** The eight gates by the names and words they look for. */
  lemma GatesIff(args: Args, g: Json, r: Json, c: Json)
    requires Authorised(args)
    ensures var gates := GatesOf(args.model, g, r, c);
            && (gates.structuredOutput <==> g.Obj? || g.Arr?)
            && (gates.astSafety <==> OneOfPositive(["astsafety", "astgate", "safetygate"], g, r, c))
            && (gates.directArgvTests <==> OneOfPositive(["directargv", "tests", "testresult", "teststatus"], g, r, c))
            && (gates.unifiedDiff <==> OneOfShowing(["unifieddiff", "diff"], g, r, c))
            && (gates.sourceApplyBlocked <==>
                  || OneOfDenying(["sourceapply", "applyavailable", "applyallowed"], g, r, c)
                  || OneMentions("source_apply_blocked", g, r, c)
                  || OneMentions("BLOCKED_REQUIRES_SEPARATE_CANDIDATE_AUTHORIZATION", g, r, c))
            && (gates.promptRecorded <==> OneMentions(Text(PromptVersion), g, r, c))
            && (gates.modelRecorded <==> OneMentions(args.model, g, r, c))
            && (gates.humanReview <==>
                  OneMentions("HUMAN_REVIEW_REQUIRED", g, r, c) || OneOfPositive(["humanreviewrequired"], g, r, c))
  {
    hide *;
    GatesAreExistential(args, g, r, c);
    NamesOfTopics();
    TopicIs(AstSafety, g, r, c);
    TopicIs(ArgvTests, g, r, c);
    TopicIs(UnifiedDiff, g, r, c);
    TopicIs(SourceApply, g, r, c);
    TopicIs(HumanReview, g, r, c);
  }

  /** All gates hold exactly if each of the eight does. */
  lemma AllGates(gates: Gates)
    ensures gates.All() <==>
            && gates.structuredOutput && gates.astSafety && gates.directArgvTests && gates.unifiedDiff && gates.sourceApplyBlocked
            && gates.promptRecorded && gates.modelRecorded && gates.humanReview
  {
  }

  /** Value i of the list is the first text that is not blank. */
  predicate IsFirstText(values: seq<Json>, i: nat) {
    && i < |values| && values[i].Str? && Trim(values[i].s) != ""
    && forall k :: 0 <= k < i ==> !values[k].Str? || Trim(values[k].s) == ""
  }

  lemma {:induction false} FirstTextIs(values: seq<Json>)
    ensures FirstText(values).None? <==> forall k :: 0 <= k < |values| ==> !values[k].Str? || Trim(values[k].s) == ""
    ensures forall i: nat :: IsFirstText(values, i) ==> FirstText(values) == Some(Trim(values[i].s))
  {
    hide Trim;
    if values != [] {
      FirstTextIs(values[1..]);
      forall i: nat | IsFirstText(values, i) ensures FirstText(values) == Some(Trim(values[i].s)) {
        if i > 0 { assert IsFirstText(values[1..], i - 1); }
      }
      assert forall k :: 1 <= k < |values| ==> values[1..][k - 1] == values[k];
    }
  }

  /** A candidate is new: the first id named by the generation reply, or else by the runs, or else by the candidates, is not the
      one that was named before, if any was. */
  lemma NewCandidateIff(before: Json, g: Json, r: Json, c: Json)
    ensures NewCandidate(before, g, r, c) <==>
            var id := if CandidateId(g).Some? then CandidateId(g) else if CandidateId(r).Some? then CandidateId(r) else CandidateId(c);
            id.Some? && (CandidateId(before).Some? ==> id.value != CandidateId(before).value)
    ensures forall j: Json :: CandidateId(j) == FirstText(Find(j, ["candidateid"]))
  {
    CandidateOfCombined(g, r, c);
    hide Find, FirstText, Combine;
  }

  /* ---------- The document and the inventory ---------- */

  /** The value at the end of a path of keys; absent where a key is missing or there is no object. */
  function At(j: Json, path: seq<string>): Json
    decreases |path|
  {
    if path == [] then j
    else if j.Obj? && Has(j.fields, path[0]) then At(Get(j.fields, path[0]).value, path[1..])
    else At(Null, path[1..])
  }

  lemma AtOne(j: Json, key: string, rest: seq<string>)
    ensures At(j, [key] + rest) == At(Member(j, key), rest)
  {
    assert ([key] + rest)[1..] == rest;
    hide Get, Has;
    if j.Obj? { assert FieldsOf(j) == j.fields; } else { NothingInside(key); }
  }

  lemma NothingInside(key: string)
    ensures !Has(NoFields, key)
  {
  }

  lemma AtEnd(j: Json)
    ensures At(j, []) == j
  {
  }

  /** Where the schema of a post is found, and where the components are. */
  lemma SchemaIsAt(openapi: Json, path: string)
    ensures PostSchema(openapi, path) ==
            At(openapi, ["paths", path, "post", "requestBody", "content", "application/json", "schema"])
  {
    hide At, Member;
    var a := Member(openapi, "paths");
    var b := Member(a, path);
    var c := Member(b, "post");
    var d := Member(c, "requestBody");
    var e := Member(d, "content");
    var g := Member(e, "application/json");
    var p6, p5, p4 := ["schema"], ["application/json", "schema"], ["content", "application/json", "schema"];
    var p3 := ["requestBody", "content", "application/json", "schema"];
    var p2 := ["post", "requestBody", "content", "application/json", "schema"];
    var p1 := [path, "post", "requestBody", "content", "application/json", "schema"];
    AtOne(openapi, "paths", p1);
    AtOne(a, path, p2);
    AtOne(b, "post", p3);
    AtOne(c, "requestBody", p4);
    AtOne(d, "content", p5);
    AtOne(e, "application/json", p6);
    AtOne(g, "schema", []);
    AtEnd(Member(g, "schema"));
    assert ["paths"] + p1 == ["paths", path, "post", "requestBody", "content", "application/json", "schema"];
    assert [path] + p2 == p1 && ["post"] + p3 == p2 && ["requestBody"] + p4 == p3 && ["content"] + p5 == p4;
    assert ["application/json"] + p6 == p5 && ["schema"] + [] == p6;
  }

  lemma ComponentsAreAt(openapi: Json, name: string)
    ensures var schemas := At(openapi, ["components", "schemas"]);
            && (name in ComponentsOf(openapi) <==> schemas.Obj? && Has(schemas.fields, name))
            && (name in ComponentsOf(openapi) ==> Some(ComponentsOf(openapi)[name]) == Get(schemas.fields, name))
  {
    hide At, Member, Has, Get;
    AtOne(openapi, "components", ["schemas"]);
    AtOne(Member(openapi, "components"), "schemas", []);
    AtEnd(Member(Member(openapi, "components"), "schemas"));
    assert ["components"] + ["schemas"] == ["components", "schemas"] && ["schemas"] + [] == ["schemas"];
    NothingInside(name);
  }

  /** No path of the document applies source: none lies under the coding model and has one of three parts, in any case. */
  lemma NoApplyPathIff(openapi: Json)
    ensures NoApplyPath(openapi) <==>
            forall path :: Has(FieldsOf(At(openapi, ["paths"])), path) ==>
              !(Occurs(path, "/coding-model/")
                && (Occurs(Lower(path), "/apply") || Occurs(Lower(path), "/commit") || Occurs(Lower(path), "/source-write")))
  {
    hide At, Member, Has, Occurs, Contains, Lower;
    AtOne(openapi, "paths", []);
    AtEnd(Member(openapi, "paths"));
    assert ["paths"] + [] == ["paths"];
    forall path
      ensures AppliesSource(path) <==>
              && Occurs(path, "/coding-model/")
              && (Occurs(Lower(path), "/apply") || Occurs(Lower(path), "/commit") || Occurs(Lower(path), "/source-write"))
    {
      ContainsIff(path, "/coding-model/");
      ContainsIff(Lower(path), "/apply");
      ContainsIff(Lower(path), "/commit");
      ContainsIff(Lower(path), "/source-write");
    }
  }

  /** The schema of one setting in the document. */
  function SettingSchema(openapi: Json, path: string, name: string): Fields {
    var doc := ComponentsOf(openapi);
    var body := Resolve(PostSchema(openapi, path), doc, {});
    var settings := Resolve(At(Obj(body), ["properties", "settings"]), doc, {});
    Resolve(At(Obj(settings), ["properties", name]), doc, {})
  }

  /** A bound that is there is a number, and lies on the right side of the value. */
  predicate Bounds(reader: Reader, schema: Fields, bound: string, value: real, above: bool) {
    Has(schema, bound) && Get(schema, bound) != Some(Null) ==>
      && Number(reader, Get(schema, bound).value).Some?
      && if above then value <= Number(reader, Get(schema, bound).value).value
         else Number(reader, Get(schema, bound).value).value <= value
  }

  lemma PropertyIsAt(f: Fields, name: string)
    ensures At(Obj(f), ["properties", name]) == GetOr(PropertiesOf(f), name, Null)
  {
    hide At, Has, Get;
    AtOne(Obj(f), "properties", [name]);
    AtOne(Member(Obj(f), "properties"), name, []);
    AtEnd(Member(Member(Obj(f), "properties"), name));
    assert ["properties"] + [name] == ["properties", name] && [name] + [] == [name];
  }

  lemma BoundsMean(reader: Reader, schema: Fields, bound: string, value: real)
    ensures AtMost(reader, value, GetOr(schema, bound, Null)) <==> Bounds(reader, schema, bound, value, true)
    ensures AtLeast(reader, value, GetOr(schema, bound, Null)) <==> Bounds(reader, schema, bound, value, false)
  {
    hide Has, Get, Number;
  }

  /** A bound may be a number, a truth value as 0 or 1, or a text that reads as a number. */
  lemma NumberIs(reader: Reader, j: Json)
    ensures j.Num? ==> Number(reader, j) == Some(j.n)
    ensures j.Bool? ==> Number(reader, j).Some? && (j.b <==> Number(reader, j).value == 1.0) && (!j.b <==> Number(reader, j).value == 0.0)
    ensures j.Str? ==> Number(reader, j) == reader(j.s)
    ensures j.Null? || j.Arr? || j.Obj? ==> Number(reader, j) == None
  {
  }

  /** Only one model, timeout, output size and temperature are authorised, and the bounds of the document must allow them. */
  lemma WithinLimitsIff(reader: Reader, args: Args, openapi: Json, path: string)
    ensures WithinLimits(reader, args, openapi, path) <==>
            && args.model == "qwen2.5:3b" && args.timeoutSeconds == 180 && args.maxOutput == 1200 && args.temperature == 0.0
            && Bounds(reader, SettingSchema(openapi, path, "timeout_seconds"), "maximum", 180.0, true)
            && Bounds(reader, SettingSchema(openapi, path, "max_output_tokens"), "maximum", 1200.0, true)
            && Bounds(reader, SettingSchema(openapi, path, "temperature"), "minimum", 0.0, false)
  {
    hide At, Resolve, ComponentsOf, PostSchema, AtMost, AtLeast, Bounds, PropertiesOf, GetOr;
    var doc := ComponentsOf(openapi);
    var body := Resolve(PostSchema(openapi, path), doc, {});
    PropertyIsAt(body, "settings");
    var settings := Resolve(At(Obj(body), ["properties", "settings"]), doc, {});
    PropertyIsAt(settings, "timeout_seconds");
    PropertyIsAt(settings, "max_output_tokens");
    PropertyIsAt(settings, "temperature");
    BoundsMean(reader, SettingSchema(openapi, path, "timeout_seconds"), "maximum", 180.0);
    BoundsMean(reader, SettingSchema(openapi, path, "max_output_tokens"), "maximum", 1200.0);
    BoundsMean(reader, SettingSchema(openapi, path, "temperature"), "minimum", 0.0);
  }

  /** A row is of the model: its name, or without one its model, reads as the model, or its model does; spaces aside. */
  lemma NamesIff(row: Json, model: string)
    requires model != ""
    ensures Names(row, model) <==>
            && row.Obj?
            && var name, other := Member(row, "name"), Member(row, "model");
               (name.Str? && Trim(name.s) == model && name.s != "") || (other.Str? && Trim(other.s) == model)
  {
    hide Trim, Member;
  }

  /** Row i of the list is the last of the model. */
  predicate IsLastRow(rows: Items, model: string, row: Json) {
    rows.Item? && (IsLastRow(rows.tail, model, row) || (rows.head == row && Names(row, model) && NoRow(rows.tail, model)))
  }

  predicate NoRow(rows: Items, model: string) { rows.Item? ==> !Names(rows.head, model) && NoRow(rows.tail, model) }

  lemma {:induction false} SelectedIsLast(rows: Items, model: string, found: Option<Json>)
    ensures NoRow(rows, model) ==> SelectedRow(rows, model, found) == found
    ensures !NoRow(rows, model) ==>
              SelectedRow(rows, model, found).Some? && IsLastRow(rows, model, SelectedRow(rows, model, found).value)
  {
    hide Names;
    if rows.Item? { SelectedIsLast(rows.tail, model, if Names(rows.head, model) then Some(rows.head) else found); }
  }

  predicate IsOf(items: Items, j: Json) { items.Item? && (items.head == j || IsOf(items.tail, j)) }

  lemma {:induction false} ListsIff(items: Items, j: Json)
    ensures Lists(items, j) <==> IsOf(items, j)
  {
    if items.Item? { ListsIff(items.tail, j); }
  }

  lemma {:induction false} LastRowIsOne(rows: Items, model: string, a: Json, b: Json)
    requires IsLastRow(rows, model, a) && IsLastRow(rows, model, b)
    ensures a == b
  {
    hide Names;
    if IsLastRow(rows.tail, model, a) && IsLastRow(rows.tail, model, b) { LastRowIsOne(rows.tail, model, a, b); }
    else if IsLastRow(rows.tail, model, a) { LastRowIsRow(rows.tail, model, a); }
    else if IsLastRow(rows.tail, model, b) { LastRowIsRow(rows.tail, model, b); }
  }

  lemma {:induction false} LastRowIsRow(rows: Items, model: string, row: Json)
    requires IsLastRow(rows, model, row)
    ensures !NoRow(rows, model)
  {
    hide Names;
    if IsLastRow(rows.tail, model, row) { LastRowIsRow(rows.tail, model, row); }
  }

  /** The model may be used: the last row of the inventory that names it has no remote host or model, and if it lists any
      abilities, completion is among them. */
  lemma LocalModelIff(model: string, tags: Json)
    ensures LocalModel(model, tags) <==>
            && At(tags, ["models"]).Arr?
            && exists row :: IsLastRow(At(tags, ["models"]).items, model, row)
                 && !Truthy(At(row, ["remote_host"])) && !Truthy(At(row, ["remote_model"]))
                 && (At(row, ["capabilities"]).Arr? && At(row, ["capabilities"]).items.Item? ==>
                       IsOf(At(row, ["capabilities"]).items, Str("completion")))
  {
    hide At, Member, SelectedRow, IsLastRow, Lists, IsOf, Truthy;
    MemberIsAt(tags, "models");
    if Member(tags, "models").Arr? {
      var rows := Member(tags, "models").items;
      SelectedIsLast(rows, model, None);
      forall row | IsLastRow(rows, model, row) ensures SelectedRow(rows, model, None) == Some(row) {
        LastRowIsRow(rows, model, row);
        LastRowIsOne(rows, model, row, SelectedRow(rows, model, None).value);
      }
      forall row {:trigger IsLastRow(rows, model, row)}
        ensures At(row, ["remote_host"]) == Member(row, "remote_host") && At(row, ["remote_model"]) == Member(row, "remote_model")
        ensures At(row, ["capabilities"]) == Member(row, "capabilities")
      {
        MemberIsAt(row, "remote_host");
        MemberIsAt(row, "remote_model");
        MemberIsAt(row, "capabilities");
      }
      forall items ensures Lists(items, Str("completion")) <==> IsOf(items, Str("completion")) {
        ListsIff(items, Str("completion"));
      }
    }
  }

  lemma MemberIsAt(j: Json, key: string)
    ensures At(j, [key]) == Member(j, key)
  {
    hide At, Member;
    AtOne(j, key, []);
    AtEnd(Member(j, key));
    assert [key] + [] == [key];
  }
}
