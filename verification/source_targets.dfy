/**
 Which files may be targets, said by the parts of their path and the end of their name.
 */
module SourceTargets {
  import opened Common
  import opened SourceTree

  /* ---------- Names ---------- */

  predicate NoDot(s: string) { forall i :: 0 <= i < |s| ==> s[i] != '.' }

  lemma {:induction false} LastDotIs(s: string)
    ensures var i := LastDot(s); (i >= 0 ==> s[i] == '.') && forall j :: i < j < |s| ==> s[j] != '.'
  {
    if s != [] && s[|s| - 1] != '.' { LastDotIs(s[..|s| - 1]); }
  }

  /** The suffix is what follows the last dot, with the dot, if there is something before and after it. */
  lemma SuffixIs(stem: string, ext: string)
    requires stem != "" && ext != "" && NoDot(ext)
    ensures Suffix(stem + "." + ext) == "." + ext
  {
    var s := stem + "." + ext;
    LastDotIs(s);
    assert s[|stem|] == '.';
    assert forall j :: |stem| < j < |s| ==> s[j] == ext[j - |stem| - 1];
    assert s[|stem|..] == "." + ext;
  }

  /** Every name has a suffix or none: without a dot, with its only dot in front, or with a dot at the end. */
  lemma NoSuffixIff(name: string)
    ensures Suffix(name) == "" <==> NoDot(name) || name[|name| - 1] == '.' || (name[0] == '.' && NoDot(name[1..]))
    ensures Suffix(name) != "" ==>
              exists i :: 0 < i < |name| - 1 && name[i] == '.' && NoDot(name[i + 1..]) && Suffix(name) == name[i..]
  {
    LastDotIs(name);
    var i := LastDot(name);
    if i == 0 { assert NoDot(name[1..]); }
    if i < 0 { assert NoDot(name); }
    if 0 < i < |name| - 1 { assert NoDot(name[i + 1..]) && !NoDot(name[1..]) by { assert name[1..][i - 1] == '.'; } }
  }

  /** Small letters for capitals, and everything else as it is. */
  lemma LowerIs(s: string)
    ensures |Lower(s)| == |s|
    ensures forall i :: 0 <= i < |s| ==>
              Lower(s)[i] == if 'A' <= s[i] && s[i] <= 'Z' then (s[i] as int + 32) as char else s[i]
  {
  }

  /* ---------- Targets ---------- */

  /** No part of the path is hidden, belongs to version control, builds or dependencies, or is the runtime state. */
  predicate OpenPath(p: Path) {
    forall i :: 0 <= i < |p| ==>
      && (p[i] == "" || p[i][0] != '.')
      && p[i] !in ["node_modules", "venv", "__pycache__", "dist", "build", "runtime_state"]
  }

  /** What may be in a file, by the end of its name. */
  predicate TextName(suffix: string) {
    suffix in [".py", ".ts", ".tsx", ".js", ".jsx", ".dart", ".md", ".txt", ".json", ".yaml", ".yml", ".toml", ".html", ".css",
               ".scss", ".sql"]
  }

  predicate SecretName(name: string, suffix: string) {
    || name in [".env", ".env.local", ".env.production", "id_rsa", "id_ed25519"]
    || suffix in [".pem", ".key", ".p12", ".pfx", ".crt", ".cer"]
  }

  lemma PartIs(part: string)
    ensures BlockedPart(part) <==>
            || (part != "" && part[0] == '.')
            || part in ["node_modules", "venv", "__pycache__", "dist", "build", "runtime_state"]
  {
    HiddenParts(part);
  }

  lemma HiddenParts(part: string)
    ensures part in {".git", ".svn", ".hg", ".venv"} ==> part != "" && part[0] == '.'
  {
  }

  lemma NamesAre(name: string, suffix: string)
    ensures SecretName(name, suffix) <==> BlockedName(name) || BlockedSuffix(suffix)
    ensures TextName(suffix) <==> TextExtension(suffix)
  {
  }

  /** A path may be a target exactly if it leads through no such part to a text file of at most 220,000 bytes that does not
      look like a secret; and the refusals come in the order missing, blocked, no text, too large. */
  lemma TargetIff(tree: Tree, p: Path)
    ensures var name := Lower(FileName(p)); var suffix := Lower(Suffix(FileName(p)));
            var open := OpenPath(p) && !SecretName(name, suffix);
            && (SafeTarget(tree, p).Ok? <==> p in tree && open && TextName(suffix) && |tree[p]| <= 220_000)
            && (SafeTarget(tree, p) == Err(PathNotFound) <==> p !in tree)
            && (SafeTarget(tree, p) == Err(TargetFileBlocked) <==> p in tree && !open)
            && (SafeTarget(tree, p) == Err(TargetExtensionBlocked) <==> p in tree && open && !TextName(suffix))
            && (SafeTarget(tree, p) == Err(TargetFileTooLarge) <==> p in tree && open && TextName(suffix) && |tree[p]| > 220_000)
    ensures FileName(p) == if |p| == 0 then "" else p[|p| - 1]
  {
    hide Lower, Suffix, SecretName, TextName, BlockedName, BlockedSuffix, TextExtension, BlockedPart;
    NamesAre(Lower(FileName(p)), Lower(Suffix(FileName(p))));
    forall i | 0 <= i < |p|
      ensures BlockedPart(p[i]) <==>
              || (p[i] != "" && p[i][0] == '.')
              || p[i] in ["node_modules", "venv", "__pycache__", "dist", "build", "runtime_state"]
    {
      PartIs(p[i]);
    }
  }
}
