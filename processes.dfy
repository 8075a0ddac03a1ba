/** Detecting the target program by name: the process name derived from the
    program path, and the case-insensitive search over the running processes. */
module Processes {

  /** Upper-casing as the ordinal case-insensitive comparison applies it, on ASCII letters. */
  function AsciiUpper(c: char): char
  {
    if 'a' <= c <= 'z' then (c as int - 32) as char else c
  }

  /** `StringComparison.OrdinalIgnoreCase` equality. */
  predicate EqualsIgnoreCase(a: string, b: string)
  {
    |a| == |b| && forall i | 0 <= i < |a| :: AsciiUpper(a[i]) == AsciiUpper(b[i])
  }

  /** The running-process check: true when some process in the list has the given
      name, compared ignoring case. The search stops at the first match. */
  function IsProcessRunning(processes: seq<string>, processName: string): (r: bool)
    ensures r <==> exists i | 0 <= i < |processes| :: EqualsIgnoreCase(processes[i], processName)
  {
    if processes == [] then false
    else if EqualsIgnoreCase(processes[0], processName) then true
    else IsProcessRunning(processes[1..], processName)
  }

  /** Names that differ only in case are watched identically. */
  lemma MatchIgnoresCase(processes: seq<string>, name: string, other: string)
    requires EqualsIgnoreCase(name, other)
    ensures IsProcessRunning(processes, name) == IsProcessRunning(processes, other)
  {
    if IsProcessRunning(processes, name) {
      var i :| 0 <= i < |processes| && EqualsIgnoreCase(processes[i], name);
      assert EqualsIgnoreCase(processes[i], other);
    }
    if IsProcessRunning(processes, other) {
      var i :| 0 <= i < |processes| && EqualsIgnoreCase(processes[i], other);
      assert EqualsIgnoreCase(processes[i], name);
    }
  }

  predicate IsSeparator(c: char)
  {
    c == '\\' || c == '/'
  }

  /** The index of the last occurrence of a character satisfying `found`, or -1. */
  function LastIndex(s: string, found: char -> bool): (k: int)
    ensures -1 <= k < |s|
    ensures k >= 0 ==> found(s[k])
    ensures forall j | k < j < |s| :: !found(s[j])
  {
    if s == [] then -1
    else if found(s[|s| - 1]) then |s| - 1
    else LastIndex(s[..|s| - 1], found)
  }

  predicate IsDriveLetter(c: char)
  {
    'A' <= c <= 'Z' || 'a' <= c <= 'z'
  }

  /** Where the file name starts: after the last directory separator, or after a
      drive prefix such as `C:` when there is no separator. */
  function FileNameStart(path: string): (k: nat)
    ensures k <= |path|
    ensures forall i | k <= i < |path| :: !IsSeparator(path[i])
    ensures 0 < k ==>
              IsSeparator(path[k - 1]) ||
              (k == 2 && IsDriveLetter(path[0]) && path[1] == ':' &&
               forall i | 0 <= i < |path| :: !IsSeparator(path[i]))
    ensures |path| >= 2 && IsDriveLetter(path[0]) && path[1] == ':' ==> k >= 2
  {
    var last := LastIndex(path, IsSeparator);
    if last >= 0 then last + 1
    else if |path| >= 2 && IsDriveLetter(path[0]) && path[1] == ':' then 2
    else 0
  }

  /** `Path.GetFileName`: what follows the last directory separator, or a drive
      prefix such as `C:` when there is no separator. */
  function FileName(path: string): (r: string)
    ensures forall i | 0 <= i < |r| :: !IsSeparator(r[i])
    ensures |r| <= |path| && r == path[|path| - |r|..]
    ensures |r| < |path| ==>
              IsSeparator(path[|path| - |r| - 1]) ||
              (|path| - |r| == 2 && IsDriveLetter(path[0]) && path[1] == ':')
    ensures |path| >= 2 && IsDriveLetter(path[0]) && path[1] == ':' ==> |r| <= |path| - 2
  {
    path[FileNameStart(path)..]
  }

  predicate IsDot(c: char)
  {
    c == '.'
  }

  /** Where the extension of a file name starts: at its last dot, or at its end. */
  function ExtensionStart(name: string): (k: nat)
    ensures k <= |name|
    ensures k < |name| ==> IsDot(name[k])
    ensures forall i | k < i < |name| :: !IsDot(name[i])
    ensures k == |name| ==> forall i | 0 <= i < |name| :: !IsDot(name[i])
  {
    var last := LastIndex(name, IsDot);
    if last >= 0 then last else |name|
  }

  /** `Path.GetFileNameWithoutExtension`: the file name up to its last dot. */
  function FileNameWithoutExtension(path: string): (r: string)
    ensures forall i | 0 <= i < |r| :: !IsSeparator(r[i])
    ensures r <= FileName(path)
    ensures r == FileName(path) ==> forall i | 0 <= i < |r| :: r[i] != '.'
    ensures r != FileName(path) ==>
              (FileName(path)[|r|] == '.' &&
               forall i | |r| < i < |FileName(path)| :: FileName(path)[i] != '.')
  {
    var name := FileName(path);
    name[..ExtensionStart(name)]
  }

  /** A path made of a directory ending in a separator, a stem and an extension
      without dots gives the stem as the process name to watch for. */
  lemma WatchedNameIsStem(dir: string, stem: string, ext: string)
    requires dir != [] && IsSeparator(dir[|dir| - 1])
    requires forall i | 0 <= i < |stem| :: !IsSeparator(stem[i])
    requires forall i | 0 <= i < |ext| :: !IsSeparator(ext[i]) && !IsDot(ext[i])
    ensures FileNameWithoutExtension(dir + stem + "." + ext) == stem
  {
    var name := stem + "." + ext;
    assert dir + stem + "." + ext == dir + name;
    assert forall i | 0 <= i < |name| :: !IsSeparator(name[i]) by {
      forall i | 0 <= i < |name|
        ensures !IsSeparator(name[i])
      {
        if i > |stem| {
          assert name[i] == ext[i - |stem| - 1];
        }
      }
    }
    FileNameAfterSeparator(dir, name);
    StemBeforeExtension(stem, ext);
    assert name[..|stem|] == stem;
  }

  lemma FileNameAfterSeparator(dir: string, name: string)
    requires dir != [] && IsSeparator(dir[|dir| - 1])
    requires forall i | 0 <= i < |name| :: !IsSeparator(name[i])
    ensures FileName(dir + name) == name
  {
    var path := dir + name;
    assert path[|dir| - 1] == dir[|dir| - 1];
    assert path[FileNameStart(path)..] == name;
  }

  lemma StemBeforeExtension(stem: string, ext: string)
    requires forall i | 0 <= i < |ext| :: !IsDot(ext[i])
    ensures ExtensionStart(stem + "." + ext) == |stem|
  {
    var name := stem + "." + ext;
    assert IsDot(name[|stem|]);
    assert forall i | |stem| < i < |name| :: name[i] == ext[i - |stem| - 1];
  }

  /** A program started from `C:\Games\Foo.exe` is watched for under the name `Foo`. */
  lemma WatchedNameExample()
    ensures FileNameWithoutExtension("C:\\Games\\Foo.exe") == "Foo"
  {
    var dir, stem, ext := "C:\\Games\\", "Foo", "exe";
    assert dir + stem + "." + ext == "C:\\Games\\Foo.exe";
    assert forall i | 0 <= i < |stem| :: !IsSeparator(stem[i]);
    assert forall i | 0 <= i < |ext| :: !IsSeparator(ext[i]) && !IsDot(ext[i]);
    WatchedNameIsStem(dir, stem, ext);
  }

  /** The watched name `Foo` is found in a process list showing `FOO`, and not in
      one showing only `Foo.exe`. */
  lemma WatchedNameMatchExample()
    ensures IsProcessRunning(["explorer", "FOO"], "Foo")
    ensures !IsProcessRunning(["explorer", "Foo.exe"], "Foo")
  {
    assert EqualsIgnoreCase("FOO", "Foo");
    assert !EqualsIgnoreCase("explorer", "Foo");
    assert !EqualsIgnoreCase("Foo.exe", "Foo");
  }
}
