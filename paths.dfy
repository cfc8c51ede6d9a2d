/** `PathBuf::join` on Unix, as the socket path and the autostart path
    derivations use it. */
module Paths {

  predicate IsAbsolute(p: string)
  {
    p != [] && p[0] == '/'
  }

  /** `base.join(name)`: an absolute `name` replaces `base`; otherwise a
      `/` is inserted unless `base` is empty or already ends with one. */
  function Join(base: string, name: string): string
  {
    if IsAbsolute(name) then name
    else if base == [] || base[|base| - 1] == '/' then base + name
    else base + "/" + name
  }

  /** The text a relative name is appended to: `base` followed by a
      separator when one is needed. */
  function JoinPrefix(base: string): (prefix: string)
    ensures |prefix| >= |base| && prefix[..|base|] == base
  {
    if base == [] || base[|base| - 1] == '/' then base else base + "/"
  }

  /** Joining a relative name keeps the base as a prefix and the name as
      the suffix, so two different relative names never collide. */
  lemma JoinRelative(base: string, name: string)
    requires !IsAbsolute(name)
    ensures Join(base, name) == JoinPrefix(base) + name
  {
  }

  lemma JoinInjective(base: string, a: string, b: string)
    requires !IsAbsolute(a) && !IsAbsolute(b)
    requires Join(base, a) == Join(base, b)
    ensures a == b
  {
    var p := JoinPrefix(base);
    JoinRelative(base, a);
    JoinRelative(base, b);
    assert (p + a)[|p|..] == a;
    assert (p + b)[|p|..] == b;
  }
}
