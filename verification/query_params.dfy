/** The query string the screens build with `URLSearchParams`: an ordered
    list of name-value pairs, read by name and written with `set`. */
module QueryParams {
  import opened Common

  type Params = seq<(string, string)>

  /** The names, in order. */
  function Names(p: Params): (names: seq<string>)
    ensures |names| == |p|
  {
    if p == [] then [] else [p[0].0] + Names(p[1..])
  }

  /** `params.get(name)`: the value of the first pair with that name. */
  function Get(p: Params, name: string): (r: Option<string>)
    ensures r.Some? ==> (name, r.value) in p
  {
    if p == [] then None
    else if p[0].0 == name then Some(p[0].1)
    else Get(p[1..], name)
  }

  /** A name reads nothing exactly when no pair carries it. */
  lemma {:induction false} GetNoneIffAbsent(p: Params, name: string)
    ensures Get(p, name).None? <==> name !in Names(p)
  {
    if p != [] {
      assert Names(p) == [p[0].0] + Names(p[1..]);
      GetNoneIffAbsent(p[1..], name);
    }
  }

  /** The pairs whose name is not `name`, in order. */
  function Without(p: Params, name: string): (r: Params)
    ensures name !in Names(r)
    ensures |r| <= |p|
  {
    if p == [] then []
    else if p[0].0 == name then Without(p[1..], name)
    else
      var r := [p[0]] + Without(p[1..], name);
      assert Names(r) == [p[0].0] + Names(Without(p[1..], name));
      r
  }

  /** Dropping one name leaves what every other name reads. */
  lemma {:induction false} WithoutKeepsOthers(p: Params, name: string, n: string)
    requires n != name
    ensures Get(Without(p, name), n) == Get(p, n)
  {
    if p != [] {
      WithoutKeepsOthers(p[1..], name, n);
      if p[0].0 != name {
        GetCons(p[0], Without(p[1..], name), n);
      }
    }
  }

  /** Reading a list by its first pair and the rest. */
  lemma GetCons(h: (string, string), t: Params, n: string)
    ensures Get([h] + t, n) == if h.0 == n then Some(h.1) else Get(t, n)
  {
    assert ([h] + t)[1..] == t;
  }

  /** `params.set(name, value)`: the first pair with that name takes the
      value and the others with that name go; without one, the pair is
      appended. */
  function Set(p: Params, name: string, value: string): (r: Params)
    ensures Get(r, name) == Some(value)
    ensures name !in Names(p) ==> r == p + [(name, value)]
  {
    if p == [] then [(name, value)]
    else if p[0].0 == name then
      assert name in Names(p) by {
        assert Names(p)[0] == name;
      }
      [(name, value)] + Without(p[1..], name)
    else
      var rest := Set(p[1..], name, value);
      var r := [p[0]] + rest;
      assert r[0] == p[0] && r[1..] == rest;
      assert Get(r, name) == Get(rest, name);
      assert name !in Names(p) ==> r == p + [(name, value)] by {
        if name !in Names(p) {
          assert Names(p) == [p[0].0] + Names(p[1..]);
          assert p == [p[0]] + p[1..];
        }
      }
      r
  }

  /** Setting one name leaves what every other name reads. */
  lemma {:induction false} SetKeepsOthers(p: Params, name: string, value: string, n: string)
    requires n != name
    ensures Get(Set(p, name, value), n) == Get(p, n)
  {
    if p != [] {
      if p[0].0 == name {
        GetCons((name, value), Without(p[1..], name), n);
        WithoutKeepsOthers(p[1..], name, n);
      } else {
        GetCons(p[0], Set(p[1..], name, value), n);
        SetKeepsOthers(p[1..], name, value, n);
      }
    }
  }

  /** `if (value) params.set(name, value)`: an empty value sets nothing. */
  function SetIf(p: Params, name: string, value: string): (r: Params)
    ensures value == "" ==> r == p
    ensures value != "" ==> Get(r, name) == Some(value)
  {
    if value != "" then Set(p, name, value) else p
  }

  /** What a name reads after a conditional set: the new value for that name
      when it was set, the old reading otherwise. */
  lemma GetSetIf(p: Params, name: string, value: string, n: string)
    ensures Get(SetIf(p, name, value), n) == if n == name && value != "" then Some(value) else Get(p, n)
  {
    if n != name && value != "" {
      SetKeepsOthers(p, name, value, n);
    }
  }
}
