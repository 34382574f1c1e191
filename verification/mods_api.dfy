/**
 * The Lua `require` installed by `ModsApi::new`: a module name becomes a
 * script path under the mods directory (`mod:file` names the file `file.lua`
 * in the `scripts/` folder of mod `mod`), and the script, if it can be read,
 * is executed.
 */
module ModsApi {
  import opened Wrappers
  import opened Paths

  const LUA_SUFFIX: string := ".lua"

  /** `MOD_SCRIPTS_FOLDER`. */
  const MOD_SCRIPTS_FOLDER: string := "scripts/"

  /** `MAIN_SEPARATOR_STR + MOD_SCRIPTS_FOLDER`, with Unix's separator. */
  const NAMESPACE_REPLACEMENT: string := [SEPARATOR] + MOD_SCRIPTS_FOLDER

  /** `s.replace(":", with)`: every ':' replaced, left to right. */
  function ReplaceColons(s: string, with: string): (r: string)
    ensures ':' !in with ==> ':' !in r
    ensures ':' !in s ==> r == s
  {
    if s == [] then []
    else (if s[0] == ':' then with else [s[0]]) + ReplaceColons(s[1..], with)
  }

  /** Replacing distributes over concatenation. */
  lemma {:induction false} ReplaceColonsAppend(a: string, b: string, with: string)
    ensures ReplaceColons(a + b, with) == ReplaceColons(a, with) + ReplaceColons(b, with)
  {
    if a != [] {
      assert (a + b)[1..] == a[1..] + b;
      ReplaceColonsAppend(a[1..], b, with);
    } else {
      assert a + b == b;
    }
  }

  /** The first step of `require`: `.lua` is appended unless already there. */
  function WithSuffix(name: string): (r: string)
    ensures EndsWith(r, LUA_SUFFIX)
    ensures EndsWith(name, LUA_SUFFIX) ==> r == name
  {
    if EndsWith(name, LUA_SUFFIX) then name
    else
      var r := name + LUA_SUFFIX;
      assert r[|r| - |LUA_SUFFIX|..] == LUA_SUFFIX;
      r
  }

  /** The script path `require(name)` computes, relative to the mods directory. */
  function ModuleFile(name: string): string {
    ReplaceColons(WithSuffix(name), NAMESPACE_REPLACEMENT)
  }

  lemma SuffixHasNoColon()
    ensures ReplaceColons(LUA_SUFFIX, NAMESPACE_REPLACEMENT) == LUA_SUFFIX
  {
    assert ':' !in LUA_SUFFIX;
  }

  /** A script path always names a `.lua` file. */
  lemma ModuleFileIsLua(name: string)
    ensures EndsWith(ModuleFile(name), LUA_SUFFIX)
  {
    var withSuffix := WithSuffix(name);
    var stem := withSuffix[..|withSuffix| - |LUA_SUFFIX|];
    assert withSuffix == stem + LUA_SUFFIX;
    ReplaceColonsAppend(stem, LUA_SUFFIX, NAMESPACE_REPLACEMENT);
    SuffixHasNoColon();
    var r := ReplaceColons(stem, NAMESPACE_REPLACEMENT) + LUA_SUFFIX;
    assert r[|r| - |LUA_SUFFIX|..] == LUA_SUFFIX;
  }

  /** A script path never holds a ':'. */
  lemma ModuleFileHasNoColon(name: string)
    ensures ':' !in ModuleFile(name)
  {
    assert NAMESPACE_REPLACEMENT == "/scripts/";
  }

  /** A name that is already a `.lua` path without ':' is used as it is. */
  lemma ModuleFileNormal(name: string)
    requires EndsWith(name, LUA_SUFFIX) && ':' !in name
    ensures ModuleFile(name) == name
  {
  }

  /** `mod:file` names `mod/scripts/file.lua`. */
  lemma ModuleFileNamespaced(m: string, f: string)
    requires ':' !in m && ':' !in f && !EndsWith(f, LUA_SUFFIX)
    ensures ModuleFile(m + ":" + f) == m + NAMESPACE_REPLACEMENT + f + LUA_SUFFIX
  {
    var name := m + ":" + f;
    NamespacedSuffix(m, f);
    assert WithSuffix(name) == m + [':'] + f + LUA_SUFFIX;
    ReplaceColonsAppend(m, [':'], NAMESPACE_REPLACEMENT);
    ReplaceColonsAppend(m + [':'], f, NAMESPACE_REPLACEMENT);
    ReplaceColonsAppend(m + [':'] + f, LUA_SUFFIX, NAMESPACE_REPLACEMENT);
    assert ReplaceColons([':'], NAMESPACE_REPLACEMENT) == NAMESPACE_REPLACEMENT;
    SuffixHasNoColon();
  }

  /** Behind a ':', a name ends in `.lua` exactly when its file part does. */
  lemma NamespacedSuffix(m: string, f: string)
    ensures EndsWith(m + ":" + f, LUA_SUFFIX) == EndsWith(f, LUA_SUFFIX)
  {
    var name := m + ":" + f;
    var k := |LUA_SUFFIX|;
    if |f| >= k {
      assert name[|name| - k..] == f[|f| - k..];
    } else if |name| >= k {
      assert name[|name| - k..][|m| - (|name| - k)] == name[|m|] == ':';
      assert ':' !in LUA_SUFFIX;
    }
  }

  /** What happened to the script: run, run with an error, or not found. */
  datatype RequireEffect = Ran(path: string) | RanWithError(path: string) | NotFound(path: string)

  /**
   * `require(name)` under `modsPath`: the script at the computed path is read
   * (`read`, `None` when the file cannot be read) and run (`run`, `false` when
   * Lua reports an error); a missing or failing script only logs a warning,
   * so the call always succeeds.
   */
  method Require(modsPath: string, name: string, read: string -> Option<string>, run: string -> bool)
    returns (effect: RequireEffect, result: Result<(), string>)
    ensures result == Ok(())
    ensures effect.path == Join(modsPath, ModuleFile(name)) && EndsWith(effect.path, LUA_SUFFIX)
    ensures effect.NotFound? <==> read(effect.path).None?
    ensures effect.Ran? <==> read(effect.path).Some? && run(read(effect.path).value)
  {
    var path := name;
    if !EndsWith(path, LUA_SUFFIX) {
      assert WithSuffix(name) == path + LUA_SUFFIX;
      path := path + LUA_SUFFIX;
    }
    path := ReplaceColons(path, NAMESPACE_REPLACEMENT);
    var full := Join(modsPath, path);
    ModuleFileIsLua(name);
    JoinKeepsSuffix(modsPath, path, LUA_SUFFIX);
    match read(full) {
      case Some(source) =>
        effect := if run(source) then Ran(full) else RanWithError(full);
      case None =>
        effect := NotFound(full);
    }
    result := Ok(());
  }

  /**
   * A name with a leading ':' becomes an absolute path, which `join` puts in
   * place of the mods directory.
   */
  lemma LeadingColonLeavesModsDir(modsPath: string, f: string)
    requires ':' !in f && EndsWith(f, LUA_SUFFIX)
    ensures Join(modsPath, ModuleFile(":" + f)) == NAMESPACE_REPLACEMENT + f
  {
    var name := [':'] + f;
    assert name[|name| - |LUA_SUFFIX|..] == f[|f| - |LUA_SUFFIX|..];
    assert WithSuffix(name) == name;
    ReplaceColonsAppend([':'], f, NAMESPACE_REPLACEMENT);
    assert ReplaceColons([':'], NAMESPACE_REPLACEMENT) == NAMESPACE_REPLACEMENT + ReplaceColons([], NAMESPACE_REPLACEMENT);
    var file := NAMESPACE_REPLACEMENT + f;
    assert ModuleFile(":" + f) == file;
    assert file[0] == SEPARATOR;
  }
}
