/** File names as pkg/cc/filename.go and Go's path/filepath see them. */
module Filenames {
  import opened Common

  /** filepath.Ext: from the last dot of the last path element, or "". */
  function Ext(path: string): (ext: string)
    ensures |ext| <= |path|
  {
    if path == "" || path[|path| - 1] == '/' then ""
    else if path[|path| - 1] == '.' then "."
    else
      var ext := Ext(path[..|path| - 1]);
      if ext == "" then "" else ext + [path[|path| - 1]]
  }

  /** The extension is the shortest suffix that starts with a dot, within the last path element. */
  lemma {:induction false} ExtIsLast(path: string)
    ensures Ext(path) == path[|path| - |Ext(path)|..]
    ensures Ext(path) != "" ==> Ext(path)[0] == '.' && '/' !in Ext(path) && '.' !in Ext(path)[1..]
    ensures Ext(path) == "" ==> forall i | 0 <= i < |path| && path[i] == '.' :: '/' in path[i..]
  {
    if path != "" && path[|path| - 1] != '/' && path[|path| - 1] != '.' {
      var front, last := path[..|path| - 1], path[|path| - 1];
      ExtIsLast(front);
      if Ext(front) == "" {
        forall i | 0 <= i < |path| && path[i] == '.' ensures '/' in path[i..] {
          assert path[i..] == front[i..] + [last];
        }
      } else {
        assert Ext(path)[1..] == Ext(front)[1..] + [last];
      }
    } else if path != "" {
      forall i | 0 <= i < |path| ensures path[|path| - 1] in path[i..] {
        assert path[i..][|path| - 1 - i] == path[|path| - 1];
      }
    }
  }

  const SOURCE_EXTENSIONS: set<string> := {
    ".i", ".ii", ".c", ".cc", ".cpp", ".CPP", ".cxx", ".cp", ".c++", ".C", ".m", ".mm", ".mi", ".mii",
    ".M", ".s", ".S", ".go", ".h", ".H", ".hpp", ".hp", ".hxx", ".h++", ".HPP", ".tcc", ".hh"}

  predicate IsSourceFile(f: string) {
    Ext(f) in SOURCE_EXTENSIONS
  }

  function ReplaceExtension(path: string, newExt: string): string {
    path[..|path| - |Ext(path)|] + newExt
  }

  function TrimSlashes(path: string): string {
    if path != "" && path[|path| - 1] == '/' then TrimSlashes(path[..|path| - 1]) else path
  }

  function AfterLastSlash(path: string): string {
    if path == "" || path[|path| - 1] == '/' then ""
    else AfterLastSlash(path[..|path| - 1]) + [path[|path| - 1]]
  }

  /** filepath.Base. */
  function Base(path: string): string {
    if path == "" then "."
    else if TrimSlashes(path) == "" then "/"
    else AfterLastSlash(TrimSlashes(path))
  }

  const CMAKE_TEST_FILES: set<string> := {
    "DummyCXXFile.cxx", "TestForAnsiForScope.cxx", "TestForANSIStreamHeaders.cxx", "TestForSSTREAM.cxx",
    "TestForSTDNamespace.cxx", "CMakeCXXCompilerABI.cpp", "CheckForPthreads.c", "CheckFunctionExists.c",
    "CheckVariableExists.c", "CMakeCCompilerABI.c", "CMakeTestGNU.c"}

  predicate ShouldRunLocal(f: string) {
    || "conftest." <= Base(f)
    || "tmp.conftest." <= Base(f)
    || Contains(f, "CMakeTmp/src.")
    || Base(f) in CMAKE_TEST_FILES
  }

  // ------------------------------------------------------------ by their spelling

  lemma {:induction false} ExtOf(base: string, ext: string)
    requires ext != "" && ext[0] == '.' && '.' !in ext[1..] && '/' !in ext
    ensures Ext(base + ext) == ext
  {
    var path, n := base + ext, |base + ext| - 1;
    if |ext| > 1 {
      var front := ext[..|ext| - 1];
      assert path[..n] == base + front;
      assert ext[|ext| - 1] in ext && ext[1..][|ext| - 2] == ext[|ext| - 1];
      ExtOf(base, front);
      assert front + [ext[|ext| - 1]] == ext;
    }
  }

  lemma {:induction false} NoExt(path: string)
    requires '.' !in path
    ensures Ext(path) == ""
  {
    if path != "" { NoExt(path[..|path| - 1]); }
  }

  /** Only the extension is replaced; a path without one gets one. */
  lemma ExtensionReplaced(base: string, ext: string, newExt: string)
    requires ext != "" && ext[0] == '.' && '.' !in ext[1..] && '/' !in ext
    ensures ReplaceExtension(base + ext, newExt) == base + newExt
    ensures '.' !in base ==> ReplaceExtension(base, newExt) == base + newExt
  {
    ExtOf(base, ext);
    assert (base + ext)[..|base|] == base;
    if '.' !in base { NoExt(base); }
    assert base[..|base|] == base;
  }

  lemma {:induction false} LastElement(dir: string, name: string)
    requires '/' !in name && (dir == "" || dir[|dir| - 1] == '/')
    ensures AfterLastSlash(dir + name) == name
  {
    if name != "" {
      var front := name[..|name| - 1];
      LastElement(dir, front);
      assert (dir + name)[..|dir + name| - 1] == dir + front;
      assert name[|name| - 1] in name && front + [name[|name| - 1]] == name;
    }
  }

  lemma BaseOf(dir: string, name: string)
    requires name != "" && '/' !in name && (dir == "" || dir[|dir| - 1] == '/')
    ensures Base(dir + name) == name
  {
    assert (dir + name)[|dir + name| - 1] == name[|name| - 1] && name[|name| - 1] in name;
    LastElement(dir, name);
  }

  /** Files that build systems compile to find out about the compiler. */
  predicate ProbeFile(name: string) {
    || "conftest." <= name || "tmp.conftest." <= name
    || name == "DummyCXXFile.cxx" || name == "TestForAnsiForScope.cxx" || name == "TestForANSIStreamHeaders.cxx"
    || name == "TestForSSTREAM.cxx" || name == "TestForSTDNamespace.cxx" || name == "CMakeCXXCompilerABI.cpp"
    || name == "CheckForPthreads.c" || name == "CheckFunctionExists.c" || name == "CheckVariableExists.c"
    || name == "CMakeCCompilerABI.c" || name == "CMakeTestGNU.c"
  }

  /** Those are compiled locally, in whatever directory they are; so is what CMake generates. */
  lemma ProbesRunLocal(dir: string, name: string)
    requires name != "" && '/' !in name && (dir == "" || dir[|dir| - 1] == '/')
    ensures ShouldRunLocal(dir + name) <==> ProbeFile(name) || Contains(dir + name, "CMakeTmp/src.")
  {
    BaseOf(dir, name);
  }
}
