/**
 The Genesis hash chain (genesis/ceremony.py).
 */
module Genesis {
  import opened Canon
  import Base64

  const ORDER: seq<string> := [
    "GenesisCreated", "RegistryCreated", "RootIdentityCreated", "RootAuthorityGranted", "GenesisClosed"]

  datatype GenesisAct = GenesisAct(actType: string, configHash: Text, parents: seq<Text>, hash: Text)

  function GenesisValue(actType: string, configHash: Text, parents: seq<Text>): Value {
    Obj(map["act_type" := Str(Plain(actType)), "config_hash" := Str(configHash), "parents" := Strs(parents)])
  }

  function ConfigHash(config: Bytes): Text {
    ObjectHash("genesis_config", Str(Plain(Base64.Encode(config))))
  }

  /** The Act carries the hash of its own fields, and names exactly the one before it as parent. */
  predicate LinkAt(acts: seq<GenesisAct>, i: nat)
    requires i < |acts|
  {
    && acts[i].hash == ObjectHash("genesis_act", GenesisValue(acts[i].actType, acts[i].configHash, acts[i].parents))
    && acts[i].parents == if i == 0 then [] else [acts[i - 1].hash]
  }

  predicate IsChain(acts: seq<GenesisAct>) {
    forall i | 0 <= i < |acts| :: LinkAt(acts, i)
  }

  method Ceremony(config: Bytes) returns (root: Text, acts: seq<GenesisAct>)
    ensures |acts| == |ORDER| && IsChain(acts)
    ensures forall i | 0 <= i < |acts| :: acts[i].actType == ORDER[i] && acts[i].configHash == ConfigHash(config)
    ensures acts[0].actType == "GenesisCreated" && acts[1].actType == "RegistryCreated"
    ensures acts[2].actType == "RootIdentityCreated" && acts[3].actType == "RootAuthorityGranted"
    ensures acts[4].actType == "GenesisClosed" && root == acts[4].hash
  {
    var configHash := ConfigHash(config);
    var parent := None;
    acts := [];
    for i := 0 to |ORDER|
      invariant |acts| == i && IsChain(acts)
      invariant forall k | 0 <= k < i :: acts[k].actType == ORDER[k] && acts[k].configHash == configHash
      invariant parent == if i == 0 then None else Some(acts[i - 1].hash)
    {
      var parents := if parent.None? then [] else [parent.value];
      var hash := ObjectHash("genesis_act", GenesisValue(ORDER[i], configHash, parents));
      ghost var before := acts;
      acts := acts + [GenesisAct(ORDER[i], configHash, parents, hash)];
      assert forall k | 0 <= k < i :: LinkAt(before, k) ==> LinkAt(acts, k);
      parent := Some(hash);
    }
    root := parent.value;
  }

  lemma GenesisValueInjective(a: GenesisAct, b: GenesisAct)
    requires GenesisValue(a.actType, a.configHash, a.parents) == GenesisValue(b.actType, b.configHash, b.parents)
    ensures a.(hash := b.hash) == b
  {
    var v := GenesisValue(a.actType, a.configHash, a.parents).fields;
    var w := GenesisValue(b.actType, b.configHash, b.parents).fields;
    assert v["act_type"] == w["act_type"] && v["config_hash"] == w["config_hash"] && v["parents"] == w["parents"];
    StrsInjective(a.parents, b.parents);
  }

  /** The root hash determines the whole chain behind it: its length and every field of every Act. */
  lemma {:induction false} RootDeterminesChain(xs: seq<GenesisAct>, ys: seq<GenesisAct>)
    requires IsChain(xs) && IsChain(ys) && xs != [] && ys != []
    requires xs[|xs| - 1].hash == ys[|ys| - 1].hash
    ensures xs == ys
  {
    var m, n := |xs| - 1, |ys| - 1;
    assert LinkAt(xs, m) && LinkAt(ys, n);
    GenesisValueInjective(xs[m], ys[n]);
    assert |xs[m].parents| == |ys[n].parents|;
    if m > 0 {
      assert xs[m].parents[0] == ys[n].parents[0];
      assert forall k | 0 <= k < m :: LinkAt(xs, k) ==> LinkAt(xs[..m], k);
      assert forall k | 0 <= k < n :: LinkAt(ys, k) ==> LinkAt(ys[..n], k);
      RootDeterminesChain(xs[..m], ys[..n]);
    }
    assert xs == xs[..m] + [xs[m]] && ys == ys[..n] + [ys[n]];
  }

  /** Nothing but one configuration, byte for byte, leads to a given root. */
  lemma RootDeterminesConfig(xs: seq<GenesisAct>, ys: seq<GenesisAct>, configX: Bytes, configY: Bytes)
    requires IsChain(xs) && IsChain(ys) && xs != [] && ys != []
    requires xs[0].configHash == ConfigHash(configX) && ys[0].configHash == ConfigHash(configY)
    requires xs[|xs| - 1].hash == ys[|ys| - 1].hash
    ensures configX == configY
  {
    RootDeterminesChain(xs, ys);
    Base64.EncodeInjective(configX, configY);
  }
}
