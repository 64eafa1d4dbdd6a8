/**
 Which spellings of a tool id mean the same tool, said without the loop that normalises them.
 */
module ToolSpellings {
  import opened Common
  import opened ToolIds

  /** The characters that an id keeps, capitals as small letters. */
  predicate Kept(c: char) {
    'a' <= c <= 'z' || 'A' <= c <= 'Z' || '0' <= c <= '9' || c == '_' || c == '.' || c == '-'
  }

  function Small(s: string): string {
    seq(|s|, i requires 0 <= i < |s| => if 'A' <= s[i] <= 'Z' then s[i] + ('a' - 'A') else s[i])
  }

  lemma CharacterIs(c: char)
    ensures InAlphabet(Lower(c)) <==> Kept(c)
    ensures [Lower(c)] == Small([c])
  {
  }

  /** A stretch of kept characters stays, in small letters. */
  lemma {:induction false} KeptStays(a: string, rest: string, inRun: bool)
    requires a != "" && forall i :: 0 <= i < |a| ==> Kept(a[i])
    ensures Squeeze(a + rest, inRun) == Small(a) + Squeeze(rest, false)
  {
    hide Kept, InAlphabet, Lower;
    CharacterIs(a[0]);
    var s := a + rest;
    assert s[0] == a[0] && s[1..] == a[1..] + rest;
    assert Small(a) == Small([a[0]]) + Small(a[1..]);
    if |a| > 1 { KeptStays(a[1..], rest, false); } else { assert a[1..] + rest == rest; }
  }

  /** A stretch of other characters becomes one dash. */
  lemma {:induction false} OthersBecomeADash(r: string, rest: string, inRun: bool)
    requires r != "" && forall i :: 0 <= i < |r| ==> !Kept(r[i])
    requires rest == "" || Kept(rest[0])
    ensures Squeeze(r + rest, inRun) == (if inRun then "" else "-") + Squeeze(rest, false)
  {
    hide Kept, InAlphabet, Lower;
    CharacterIs(r[0]);
    var s := r + rest;
    assert s[0] == r[0] && s[1..] == r[1..] + rest;
    if |r| > 1 {
      OthersBecomeADash(r[1..], rest, true);
    } else {
      assert r[1..] + rest == rest;
      if rest != "" { CharacterIs(rest[0]); }
    }
  }

  predicate Dashes(s: string) { forall i :: 0 <= i < |s| ==> s[i] == '-' }

  /** t is s without the dashes around it. */
  predicate IsStripped(s: string, t: string) {
    && (t != "" ==> t[0] != '-' && t[|t| - 1] != '-')
    && exists i :: 0 <= i <= |s| - |t| && s[i..i + |t|] == t && Dashes(s[..i]) && Dashes(s[i + |t|..])
  }

  lemma {:induction false} LeftIs(s: string) returns (i: nat)
    ensures i <= |s| && StripLeft(s) == s[i..] && Dashes(s[..i]) && (StripLeft(s) != "" ==> StripLeft(s)[0] != '-')
  {
    i := 0;
    if s != "" && s[0] == '-' {
      var k := LeftIs(s[1..]);
      i := k + 1;
      assert s[1..][k..] == s[i..];
      forall j | 0 <= j < i ensures s[..i][j] == '-' { if j > 0 { assert s[..i][j] == s[1..][..k][j - 1]; } }
    }
  }

  lemma {:induction false} RightIs(s: string)
    ensures var t := StripRight(s); t <= s && Dashes(s[|t|..]) && (t != "" ==> t[|t| - 1] != '-')
  {
    if s != "" && s[|s| - 1] == '-' {
      var init := s[..|s| - 1];
      RightIs(init);
      var t := StripRight(init);
      forall j | 0 <= j < |s[|t|..]| ensures s[|t|..][j] == '-' {
        if j < |init| - |t| { assert s[|t|..][j] == init[|t|..][j]; }
      }
    }
  }

  /** Dashes at either end do not count. */
  lemma CleanIs(s: string)
    ensures IsStripped(Squeeze(s, false), Clean(s))
  {
    hide Squeeze;
    var squeezed := Squeeze(s, false);
    var i := LeftIs(squeezed);
    var left := StripLeft(squeezed);
    RightIs(left);
    var t := Clean(s);
    assert left[..|t|] == t;
    assert squeezed[i..i + |t|] == t && squeezed[i + |t|..] == left[|t|..];
    if t != "" { assert t[0] == left[0]; }
  }

  /** Eight spellings are aliases of four ids; every other id stands for itself. */
  lemma AliasIs(s: string)
    ensures s == "tree_sitter" || s == "treesitter" ==> Alias(s) == "tree-sitter"
    ensures s == "open_telemetry" || s == "otel" ==> Alias(s) == "opentelemetry"
    ensures s == "native_code_index" || s == "native_code_index_contract" ==> Alias(s) == "native-code-index"
    ensures s == "local_telemetry" || s == "local_telemetry_contract" ==> Alias(s) == "local-telemetry"
    ensures || Alias(s) == s
            || s in ["tree_sitter", "treesitter", "open_telemetry", "otel", "native_code_index", "native_code_index_contract",
                     "local_telemetry", "local_telemetry_contract"]
  {
  }
}
