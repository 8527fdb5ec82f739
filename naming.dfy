/**
  The channel identifier derived from the channel file's path at load time:
  the file's base name cut at its first '.'.
 */
module Naming {

  /** True when `s` is a suffix of `t`. */
  predicate IsSuffix(s: string, t: string)
  {
    |s| <= |t| && t[|t| - |s|..] == s
  }

  /** The text after the last '/' of `path` (all of `path` when it has none). */
  function BaseName(path: string): (base: string)
    ensures IsSuffix(base, path)
    ensures '/' !in base
    ensures base == path || path[|path| - |base| - 1] == '/'
  {
    if path == [] then []
    else if path[|path| - 1] == '/' then []
    else BaseName(path[..|path| - 1]) + [path[|path| - 1]]
  }

  /** The text before the first '.' of `s` (all of `s` when it has none). */
  function BeforeFirstDot(s: string): (head: string)
    ensures head <= s
    ensures '.' !in head
    ensures head == s || s[|head|] == '.'
  {
    if s == [] || s[0] == '.' then [] else [s[0]] + BeforeFirstDot(s[1..])
  }

  /** The channel identifier of the channel stored at `path`. */
  function ChannelName(path: string): (name: string)
    ensures '/' !in name && '.' !in name
    ensures name <= BaseName(path)
    ensures name == BaseName(path) || BaseName(path)[|name|] == '.'
  {
    BeforeFirstDot(BaseName(path))
  }

  /** A file named `<name>.<extension>` in any directory is the channel `<name>`. */
  lemma {:induction false} ChannelNameOfFile(dir: string, name: string, extension: string)
    requires '/' !in name && '.' !in name && '/' !in extension
    ensures ChannelName(dir + "/" + name + "." + extension) == name
  {
    var base := name + "." + extension;
    assert '/' !in base;
    BaseNameOfPlainSuffix(dir + "/", base);
    FirstDotAfterPlainPrefix(name, "." + extension);
    assert name + "." + extension == name + ("." + extension);
    assert dir + "/" + name + "." + extension == (dir + "/") + base;
  }

  lemma {:induction false} BaseNameOfPlainSuffix(dir: string, base: string)
    requires '/' !in base && |dir| > 0 && dir[|dir| - 1] == '/'
    ensures BaseName(dir + base) == base
  {
    if base == [] {
      assert dir + base == dir;
    } else {
      var whole := dir + base;
      assert whole[..|whole| - 1] == dir + base[..|base| - 1];
      assert whole[|whole| - 1] == base[|base| - 1];
      BaseNameOfPlainSuffix(dir, base[..|base| - 1]);
    }
  }

  lemma {:induction false} FirstDotAfterPlainPrefix(name: string, rest: string)
    requires '.' !in name && |rest| > 0 && rest[0] == '.'
    ensures BeforeFirstDot(name + rest) == name
  {
    if name == [] {
      assert name + rest == rest;
    } else {
      assert (name + rest)[1..] == name[1..] + rest;
      FirstDotAfterPlainPrefix(name[1..], rest);
    }
  }
}
