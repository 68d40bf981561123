/**
 * The string operations of the .NET library that the bot's core relies on:
 * `String.Split(char)` for the restart marker, and `Path.GetFileName`,
 * `Path.GetFileNameWithoutExtension` and the `*.json` search pattern of
 * `Directory.GetFiles` for the config files. Paths use `/` as the only
 * separator.
 */
module Text {

  /** The first position of `c` in `s`, or `|s|` when there is none. */
  function IndexOf(s: string, c: char): (i: nat)
    ensures i <= |s|
    ensures i < |s| ==> s[i] == c
    ensures forall j | 0 <= j < i :: s[j] != c
  {
    if s == [] || s[0] == c then 0 else 1 + IndexOf(s[1..], c)
  }

  /** The last position of `c` in `s`, or -1 when there is none. */
  function LastIndexOf(s: string, c: char): (i: int)
    ensures -1 <= i < |s|
    ensures 0 <= i ==> s[i] == c
    ensures forall j | i < j < |s| :: s[j] != c
  {
    if s == [] then -1
    else if s[|s| - 1] == c then |s| - 1
    else LastIndexOf(s[..|s| - 1], c)
  }

  /** The position of the separator in `a + [c] + b` is found when `b` has none. */
  lemma LastIndexOfAppend(a: string, c: char, b: string)
    requires c !in b
    ensures LastIndexOf(a + [c] + b, c) == |a|
  {
    var s := a + [c] + b;
    assert s[|a|] == c;
    assert s[|a| + 1..] == b;
  }

  /** The pieces joined back with the separator between them. */
  function Join(parts: seq<string>, sep: char): (s: string)
    requires |parts| >= 1
  {
    if |parts| == 1 then parts[0] else parts[0] + [sep] + Join(parts[1..], sep)
  }

  /**
   * `s.Split(sep)`: the pieces of `s` between occurrences of `sep`, empty
   * pieces included, so that there is always at least one.
   */
  function Split(s: string, sep: char): (parts: seq<string>)
    ensures |parts| >= 1
    ensures forall k | 0 <= k < |parts| :: sep !in parts[k]
    ensures Join(parts, sep) == s
    ensures |parts| == 1 <==> sep !in s
    decreases |s|
  {
    var i := IndexOf(s, sep);
    if i == |s| then
      assert s[..i] == s;
      [s]
    else
      var rest := Split(s[i + 1..], sep);
      var parts := [s[..i]] + rest;
      assert parts[1..] == rest;
      assert s == s[..i] + [sep] + s[i + 1..];
      parts
  }

  /** Splitting undoes joining pieces that do not contain the separator. */
  lemma {:induction false} SplitJoin(parts: seq<string>, sep: char)
    requires |parts| >= 1
    requires forall k | 0 <= k < |parts| :: sep !in parts[k]
    ensures Split(Join(parts, sep), sep) == parts
  {
    var s := Join(parts, sep);
    if |parts| == 1 {
      assert sep !in s;
      assert s[..|s|] == s;
    } else {
      var p := parts[0];
      var rest := Join(parts[1..], sep);
      assert s == p + [sep] + rest;
      var i := IndexOf(s, sep);
      assert s[..|p|] == p && s[|p|] == sep;
      assert i == |p|;
      assert s[..i] == p;
      assert s[i + 1..] == rest;
      SplitJoin(parts[1..], sep);
      assert parts == [p] + parts[1..];
    }
  }

  predicate EndsWith(s: string, suffix: string) {
    |suffix| <= |s| && s[|s| - |suffix|..] == suffix
  }

  /** `Path.GetFileName`: what follows the last `/`. */
  function FileName(path: string): string {
    path[LastIndexOf(path, '/') + 1..]
  }

  /** The path names an entry directly inside `dir` (not in a sub-directory of it). */
  predicate InDirectory(path: string, dir: string) {
    var k := LastIndexOf(path, '/');
    0 <= k && path[..k] == dir
  }

  /** A path lies directly inside one directory only. */
  lemma InOneDirectory(path: string, a: string, b: string)
    requires InDirectory(path, a) && InDirectory(path, b)
    ensures a == b
  {
  }

  /** `Path.GetFileNameWithoutExtension`: the file name up to its last `.`. */
  function FileNameWithoutExtension(path: string): string {
    var name := FileName(path);
    var dot := LastIndexOf(name, '.');
    if dot < 0 then name else name[..dot]
  }

  /** The search pattern `*.json`. */
  predicate IsJsonFile(path: string) {
    EndsWith(FileName(path), ".json")
  }

  /** The path `{dir}/{stem}.json` that the bot writes a config to. */
  function JsonPath(dir: string, stem: string): string {
    dir + "/" + stem + ".json"
  }

  /**
   * A stem without `/` and `.` is what `GetFileNameWithoutExtension` recovers
   * from `{dir}/{stem}.json`, and the path is a `*.json` file directly in `dir`.
   */
  lemma JsonPathParts(dir: string, stem: string)
    requires '/' !in stem && '.' !in stem
    ensures InDirectory(JsonPath(dir, stem), dir)
    ensures IsJsonFile(JsonPath(dir, stem))
    ensures FileNameWithoutExtension(JsonPath(dir, stem)) == stem
  {
    var p := JsonPath(dir, stem);
    var tail := stem + ".json";
    assert p == dir + ['/'] + tail;
    assert '/' !in tail;
    LastIndexOfAppend(dir, '/', tail);
    assert p[..|dir|] == dir;
    assert FileName(p) == tail;
    assert tail == stem + ['.'] + "json";
    LastIndexOfAppend(stem, '.', "json");
    assert tail[..|stem|] == stem;
  }

  /** Distinct stems give distinct paths in the same directory. */
  lemma JsonPathInjective(dir: string, a: string, b: string)
    requires '/' !in a && '.' !in a && '/' !in b && '.' !in b
    ensures JsonPath(dir, a) == JsonPath(dir, b) ==> a == b
  {
    JsonPathParts(dir, a);
    JsonPathParts(dir, b);
  }
}
