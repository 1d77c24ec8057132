/**
 * Query strings as the downstream attribution tooling reads them: the part after
 * `?` is split on `&`, and each piece is split at its first `=` into a key and a
 * value. The generator applies no percent-encoding, so this reading recovers the
 * parameters exactly when no value contains `&` (and no key contains `=`).
 */
module Query {
  import opened Wrappers
  import opened Text

  datatype Param = Param(key: string, value: string)

  /** `key=value`, as the template literals of the generator write it. */
  function Render(p: Param): string {
    p.key + "=" + p.value
  }

  function RenderAll(ps: seq<Param>): (r: seq<string>)
    ensures |r| == |ps|
    ensures forall i :: 0 <= i < |ps| ==> r[i] == Render(ps[i])
  {
    if ps == [] then [] else [Render(ps[0])] + RenderAll(ps[1..])
  }

  /** `params.join("&")`. */
  function RenderQuery(ps: seq<Param>): string {
    Join(RenderAll(ps), '&')
  }

  /** A URL: the base, `?`, then the rendered parameters. */
  function WithQuery(base: string, ps: seq<Param>): string {
    base + "?" + RenderQuery(ps)
  }

  /** The part after the base and its `?` is the rendered query. */
  lemma QueryPart(base: string, ps: seq<Param>)
    ensures var url := WithQuery(base, ps);
            |url| >= |base| + 1 && url[..|base| + 1] == base + "?" && url[|base| + 1..] == RenderQuery(ps)
  {
  }

  /** The first two parameters come first, joined by `&`, and a third one would follow after another `&`. */
  lemma WithQueryFirstTwo(base: string, p: Param, p2: Param, rest: seq<Param>)
    ensures var url := WithQuery(base, [p, p2] + rest);
            var head := base + "?" + Render(p) + "&" + Render(p2);
            |url| >= |head| && url[..|head|] == head && (|url| == |head| || url[|head|] == '&')
  {
    var a, b := Render(p), Render(p2);
    var parts := RenderAll([p, p2] + rest);
    assert parts == [a, b] + RenderAll(rest);
    JoinFirstTwo(a, b, RenderAll(rest), '&');
    var tail := if RenderAll(rest) == [] then "" else ['&'] + Join(RenderAll(rest), '&');
    assert WithQuery(base, [p, p2] + rest) == (base + "?" + a + "&" + b) + tail;
  }

  /** The text before the first `=` (the whole piece when there is none). */
  function KeyPart(s: string): (k: string)
    ensures |k| <= |s| && k == s[..|k|] && '=' !in k
    ensures |k| == |s| || s[|k|] == '='
  {
    if s == [] || s[0] == '=' then "" else [s[0]] + KeyPart(s[1..])
  }

  /** A piece read as a parameter: the value is everything after the first `=`. */
  function ParseParam(s: string): Param {
    var k := KeyPart(s);
    Param(k, if |k| < |s| then s[|k| + 1..] else "")
  }

  function ParseQuery(q: string): (ps: seq<Param>)
  {
    var pieces := Split(q, '&');
    seq(|pieces|, i requires 0 <= i < |pieces| => ParseParam(pieces[i]))
  }

  /** Keys of a parameter list, in order. */
  function Keys(ps: seq<Param>): (ks: seq<string>)
    ensures |ks| == |ps|
    ensures forall i :: 0 <= i < |ps| ==> ks[i] == ps[i].key
  {
    if ps == [] then [] else [ps[0].key] + Keys(ps[1..])
  }

  /** The value of the first parameter with the given key, read without percent-decoding. */
  function Lookup(ps: seq<Param>, key: string): Option<string>
  {
    if ps == [] then None
    else if ps[0].key == key then Some(ps[0].value)
    else Lookup(ps[1..], key)
  }

  /** A key is found exactly when some parameter has it, and then with the value of such a parameter. */
  lemma {:induction false} LookupFinds(ps: seq<Param>, key: string)
    ensures Lookup(ps, key).None? <==> forall i :: 0 <= i < |ps| ==> ps[i].key != key
    ensures Lookup(ps, key).Some? ==> exists i :: 0 <= i < |ps| && ps[i] == Param(key, Lookup(ps, key).value)
  {
    if ps != [] && ps[0].key != key {
      LookupFinds(ps[1..], key);
      if Lookup(ps, key).Some? {
        var i :| 0 <= i < |ps[1..]| && ps[1..][i] == Param(key, Lookup(ps, key).value);
        assert ps[i + 1] == ps[1..][i];
      }
      forall i | 1 <= i < |ps| ensures ps[i] == ps[1..][i - 1] {}
    }
  }

  /** Looking a key up in a concatenation looks in the first part, then in the second. */
  lemma {:induction false} LookupAppend(a: seq<Param>, b: seq<Param>, key: string)
    ensures Lookup(a + b, key) == if Lookup(a, key).Some? then Lookup(a, key) else Lookup(b, key)
  {
    if a != [] {
      assert (a + b)[0] == a[0];
      assert (a + b)[1..] == a[1..] + b;
      LookupAppend(a[1..], b, key);
    } else {
      assert a + b == b;
    }
  }

  /** In a list whose keys are all different, each key reads back as its own value. */
  lemma {:induction false} LookupDistinctKeys(ps: seq<Param>, j: nat)
    requires forall a, b :: 0 <= a < b < |ps| ==> ps[a].key != ps[b].key
    requires j < |ps|
    ensures Lookup(ps, ps[j].key) == Some(ps[j].value)
  {
    if j > 0 {
      assert ps[0].key != ps[j].key;
      assert ps[1..][j - 1] == ps[j];
      LookupDistinctKeys(ps[1..], j - 1);
    }
  }

  /** A parameter list the query syntax can carry without loss. */
  predicate Transparent(ps: seq<Param>) {
    forall i :: 0 <= i < |ps| ==> '=' !in ps[i].key && '&' !in ps[i].key && '&' !in ps[i].value
  }

  /** Two lists the query syntax carries without loss still are when concatenated. */
  lemma TransparentAppend(a: seq<Param>, b: seq<Param>)
    requires Transparent(a) && Transparent(b)
    ensures Transparent(a + b)
  {
    forall i | 0 <= i < |a + b| ensures '=' !in (a + b)[i].key && '&' !in (a + b)[i].key && '&' !in (a + b)[i].value {
      if i < |a| {
        assert (a + b)[i] == a[i];
      } else {
        assert (a + b)[i] == b[i - |a|];
      }
    }
  }

  lemma {:induction false} KeyPartOfRendered(k: string, v: string)
    requires '=' !in k
    ensures KeyPart(k + "=" + v) == k
  {
    if k != [] {
      assert (k + "=" + v)[0] == k[0];
      assert (k + "=" + v)[1..] == k[1..] + "=" + v;
      KeyPartOfRendered(k[1..], v);
      assert [k[0]] + k[1..] == k;
    }
  }

  /** Reading one rendered parameter gives it back. */
  lemma ParseRender(p: Param)
    requires '=' !in p.key
    ensures ParseParam(Render(p)) == p
  {
    KeyPartOfRendered(p.key, p.value);
    assert Render(p)[|p.key| + 1..] == p.value;
  }

  /** Reading a rendered non-empty parameter list gives it back, in order. */
  lemma ParseRenderQuery(ps: seq<Param>)
    requires |ps| >= 1
    requires Transparent(ps)
    ensures ParseQuery(RenderQuery(ps)) == ps
  {
    var parts := RenderAll(ps);
    forall i | 0 <= i < |parts| ensures '&' !in parts[i] {
      assert parts[i] == ps[i].key + "=" + ps[i].value;
    }
    SplitJoin(parts, '&');
    forall i | 0 <= i < |ps| ensures ParseParam(parts[i]) == ps[i] {
      ParseRender(ps[i]);
    }
  }
}
