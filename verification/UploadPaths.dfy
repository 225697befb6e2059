/** Which client file names are accepted (util/upload_paths.py). */
module UploadPaths {
  import opened Wrappers

  datatype UnsafeName = Blank | ContainsNul | Absolute | HasSeparator | Traversal | EmptyAfterSanitizing

  /** What `str.strip` removes. */
  predicate IsSpace(c: char) {
    var n := c as int;
    || 0x09 <= n <= 0x0d || 0x1c <= n <= 0x20 || n == 0x85 || n == 0xa0 || n == 0x1680
    || 0x2000 <= n <= 0x200a || n == 0x2028 || n == 0x2029 || n == 0x202f || n == 0x205f || n == 0x3000
  }

  predicate IsBlank(name: string) {
    forall c <- name :: IsSpace(c)
  }

  function ReplaceBackslashes(s: string): string {
    if s == [] then [] else [if s[0] == '\\' then '/' else s[0]] + ReplaceBackslashes(s[1..])
  }

  function SplitSlash(s: string): (parts: seq<string>)
    ensures parts != []
  {
    if s == [] then [[]]
    else
      var rest := SplitSlash(s[1..]);
      if s[0] == '/' then [[]] + rest else [[s[0]] + rest[0]] + rest[1..]
  }

  function Kept(parts: seq<string>): seq<string> {
    if parts == [] then []
    else (if parts[0] == "" || parts[0] == "." then [] else [parts[0]]) + Kept(parts[1..])
  }

  function JoinSlash(parts: seq<string>): string {
    if parts == [] then []
    else if |parts| == 1 then parts[0]
    else parts[0] + "/" + JoinSlash(parts[1..])
  }

  function SanitizeClientFilename(name: string): Result<string, UnsafeName> {
    if IsBlank(name) then Err(Blank)
    else if '\0' in name then Err(ContainsNul)
    else if name[0] == '/' then Err(Absolute)
    else if '/' in name || '\\' in name then Err(HasSeparator)
    else
      var parts := Kept(SplitSlash(ReplaceBackslashes(name)));
      if ".." in parts then Err(Traversal)
      else
        var safe := JoinSlash(parts);
        if safe == "" then Err(EmptyAfterSanitizing) else Ok(safe)
  }

  /** A single path component that names a file. */
  predicate SafeName(name: string) {
    && !IsBlank(name)
    && '\0' !in name && '/' !in name && '\\' !in name
    && name != "." && name != ".."
  }

  lemma {:induction false} NothingToSplit(s: string)
    requires '/' !in s && '\\' !in s
    ensures ReplaceBackslashes(s) == s && SplitSlash(s) == [s]
  {
    if s != [] {
      NothingToSplit(s[1..]);
    }
  }

  /** Sanitising accepts exactly the safe single components, and changes none of them. */
  lemma SanitizeAcceptsIffSafe(name: string)
    ensures SanitizeClientFilename(name).Ok? <==> SafeName(name)
    ensures SafeName(name) ==> SanitizeClientFilename(name) == Ok(name)
  {
    if !IsBlank(name) && '/' !in name && '\\' !in name {
      NothingToSplit(name);
      assert name != [];
      var kept := Kept([name]);
      assert [name][1..] == [] && Kept([]) == [];
      assert name != "." ==> kept == [name] + [];
      assert ".." in kept <==> name == "..";
    }
  }
}
