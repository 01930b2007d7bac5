/** SECRET_VERSION: the digest of a secret's data, which the deployment carries to be rolled out when it changes. */
module Version {
  import opened Types
  import opened Config
  import opened Labels

  const CONFIG_FILE := "oauth2_proxy.cfg"

  /** The version of the proxy's secret, whose only entry is the configuration file. */
  function SecretVersion(text: string): Value { Digest(CONFIG_FILE + text) }

  function Concat(order: seq<string>, data: map<string, string>): string
    requires forall k :: k in order ==> k in data
  {
    if order == [] then ""
    else
      var k := order[|order| - 1];
      Concat(order[..|order| - 1], data) + (k + data[k])
  }

  /** Digests the data in whatever order the map has. */
  method ComputeSecretVersion(data: map<string, string>) returns (version: Value, ghost order: seq<string>)
    ensures Enumerates(order, data)
    ensures version == Digest(Concat(order, data))
    ensures forall text :: data == map[CONFIG_FILE := text] ==> version == SecretVersion(text)
  {
    var all := "";
    order := [];
    var left := data.Keys;
    while left != {}
      invariant left <= data.Keys
      invariant forall k :: k in order <==> k in data.Keys - left
      invariant forall i, j :: 0 <= i < j < |order| ==> order[i] != order[j]
      invariant all == Concat(order, data)
      decreases left
    {
      var k :| k in left;
      left := left - {k};
      assert k !in order;
      assert (order + [k])[..|order|] == order;
      order := order + [k];
      all := all + (k + data[k]);
    }
    version := Digest(all);
    if CONFIG_FILE in data && data == map[CONFIG_FILE := data[CONFIG_FILE]] {
      OneKey(order, data, CONFIG_FILE);
    }
  }

  lemma OneKey(order: seq<string>, data: map<string, string>, key: string)
    requires Enumerates(order, data) && key in data && data == map[key := data[key]]
    ensures Concat(order, data) == key + data[key]
  {
    forall i | 0 <= i < |order| ensures order[i] == key {
      assert order[i] in order && order[i] in data;
      assert order[i] in map[key := data[key]];
    }
    assert key in order;
    assert order[0] == key == order[|order| - 1];
    assert order == [key] && order[..0] == [];
  }

  /** The version changes exactly when the text does, so for single-line values exactly when the configuration does. */
  lemma VersionFollowsConfig(c: Config, d: Config)
    ensures SecretVersion(Render(c)) == SecretVersion(Render(d)) <==> Render(c) == Render(d)
    ensures SingleLine(c) ==> (SecretVersion(Render(c)) == SecretVersion(Render(d)) <==> c == d)
  {
    var x, y := Render(c), Render(d);
    if CONFIG_FILE + x == CONFIG_FILE + y {
      assert x == (CONFIG_FILE + x)[|CONFIG_FILE|..] == (CONFIG_FILE + y)[|CONFIG_FILE|..] == y;
    }
    if SingleLine(c) {
      RenderInjective(c, d);
    }
  }

  /** One entry is what makes it a function of the data: with two, the order of the map can show. */
  lemma TwoKeysCanDiffer(a: string, b: string, data: map<string, string>)
    requires a != b && data.Keys == {a, b} && data[a] == "" && data[b] == "" && |a| == |b|
    ensures Enumerates([a, b], data) && Enumerates([b, a], data)
    ensures Digest(Concat([a, b], data)) != Digest(Concat([b, a], data))
  {
    assert [a, b][..1] == [a] && [b, a][..1] == [b] && [a][..0] == [] && [b][..0] == [];
    assert Concat([a], data) == a && Concat([b], data) == b;
    assert (a + b)[..|a|] == a && (b + a)[..|a|] == b;
    assert Concat([a, b], data) == a + b && Concat([b, a], data) == b + a;
  }
}
