/**
 The project tree that governed implementations rewrite, together with the rules that
 decide which of its files may be a target. Sources and backups live in the same tree.
 */
module SourceTree {
  import opened Common

  newtype Byte = x: int | 0 <= x < 256

  /** The bytes of a file. Text is identified with its UTF-8 encoding. */
  type Content = seq<Byte>

  /** The parts of a normalised path relative to the project root. */
  type Path = seq<string>

  type Tree = map<Path, Content>

  datatype TargetError = PathNotFound | TargetFileBlocked | TargetExtensionBlocked | TargetFileTooLarge

  const MAX_TARGET_FILE_BYTES := 220_000
  const BACKUPS_ROOT: Path :=
    ["runtime_state", "operational_core_v1", "full_stack_waves_3_8", "implementation_backups"]

  predicate ExcludedPart(part: string) {
    part in {".git", ".svn", ".hg", "node_modules", ".venv", "venv", "__pycache__",
             "dist", "build", ".dart_tool", "runtime_state"}
  }

  predicate BlockedName(name: string) {
    name in {".env", ".env.local", ".env.production", "id_rsa", "id_ed25519"}
  }

  predicate BlockedSuffix(suffix: string) {
    suffix in {".pem", ".key", ".p12", ".pfx", ".crt", ".cer"}
  }

  predicate TextExtension(suffix: string) {
    suffix in {".py", ".ts", ".tsx", ".js", ".jsx", ".dart", ".md", ".txt",
               ".json", ".yaml", ".yml", ".toml", ".html", ".css", ".scss", ".sql"}
  }

  function LowerChar(c: char): char {
    if 'A' <= c <= 'Z' then c - 'A' + 'a' else c
  }

  function Lower(s: string): string {
    seq(|s|, i requires 0 <= i < |s| => LowerChar(s[i]))
  }

  /** Index of the last dot of a file name, or -1. */
  function LastDot(s: string): (i: int)
    ensures -1 <= i < |s|
  {
    if s == [] then -1
    else if s[|s| - 1] == '.' then |s| - 1
    else LastDot(s[..|s| - 1])
  }

  /** The suffix of a file name: empty when the only dot leads or the last dot trails. */
  function Suffix(name: string): string {
    var i := LastDot(name);
    if 0 < i < |name| - 1 then name[i..] else ""
  }

  function FileName(p: Path): string {
    if p == [] then "" else p[|p| - 1]
  }

  predicate BlockedPart(part: string) {
    (part != "" && part[0] == '.') || ExcludedPart(part)
  }

  predicate BlockedFile(p: Path) {
    || BlockedName(Lower(FileName(p)))
    || BlockedSuffix(Lower(Suffix(FileName(p))))
    || exists i :: 0 <= i < |p| && BlockedPart(p[i])
  }

  /** The checks a path passes before it is read or written as a target. */
  function SafeTarget(tree: Tree, p: Path): (r: Result<Content, TargetError>)
    ensures r.Ok? <==>
            && p in tree
            && !BlockedFile(p)
            && TextExtension(Lower(Suffix(FileName(p))))
            && |tree[p]| <= MAX_TARGET_FILE_BYTES
    ensures r.Ok? ==> r.value == tree[p]
  {
    if p !in tree then Err(PathNotFound)
    else if BlockedFile(p) then Err(TargetFileBlocked)
    else if !TextExtension(Lower(Suffix(FileName(p)))) then Err(TargetExtensionBlocked)
    else if |tree[p]| > MAX_TARGET_FILE_BYTES then Err(TargetFileTooLarge)
    else Ok(tree[p])
  }

  /** Where the preimage of p is kept while implementation id is applied. */
  function BackupPath(id: Id, p: Path): Path {
    BACKUPS_ROOT + [id] + p
  }

  predicate UnderBackups(p: Path) {
    BACKUPS_ROOT <= p
  }

  /** The two trees hold the same files outside the backup area. */
  ghost predicate SameSources(a: Tree, b: Tree) {
    forall p: Path :: !UnderBackups(p) ==> (p in a <==> p in b) && (p in a ==> a[p] == b[p])
  }

  /** No target is a backup, and no two backups share a file. */
  lemma BackupsNeverAlias(id: Id, p: Path, id': Id, p': Path)
    ensures UnderBackups(BackupPath(id, p)) && BlockedFile(BackupPath(id, p))
    ensures UnderBackups(p) ==> BlockedFile(p)
    ensures BackupPath(id, p) == BackupPath(id', p') ==> id == id' && p == p'
  {
    var b, b' := BackupPath(id, p), BackupPath(id', p');
    assert BlockedPart(b[0]);
    if UnderBackups(p) {
      assert BlockedPart(p[0]);
    }
    assert b[4] == id && b'[4] == id';
    assert b[5..] == p && b'[5..] == p';
  }
}
