/**
 The domain tag that precedes canonical bytes in every hash preimage (kernel/canon.py), on the
 text whose UTF-8 form is hashed.
 */
module Tags {
  import opened Canon

  const PREFIX := "powerfarm:"

  /** The preimage, or nothing where the tag would be ambiguous. */
  function Preimage(kind: string, canon: string, version: string): Option<string> {
    if kind == "" || ':' in kind || version == "" then None
    else Some(PREFIX + kind + ":" + version + canon)
  }

  function FirstColon(s: string): nat {
    if s == "" || s[0] == ':' then 0 else 1 + FirstColon(s[1..])
  }

  lemma {:induction false} FirstColonAfter(kind: string, rest: string)
    requires ':' !in kind
    ensures FirstColon(kind + ":" + rest) == |kind|
  {
    if kind == "" {
      assert kind + ":" + rest == ":" + rest;
    } else {
      FirstColonAfter(kind[1..], rest);
      assert (kind + ":" + rest)[1..] == kind[1..] + ":" + rest;
    }
  }

  /** Two preimages coincide exactly when the kinds do and version and bytes run together alike. */
  lemma PreimagesCoincide(k1: string, c1: string, v1: string, k2: string, c2: string, v2: string)
    requires Preimage(k1, c1, v1).Some? && Preimage(k2, c2, v2).Some?
    ensures Preimage(k1, c1, v1) == Preimage(k2, c2, v2) <==> k1 == k2 && v1 + c1 == v2 + c2
  {
    var s1, s2 := k1 + ":" + (v1 + c1), k2 + ":" + (v2 + c2);
    assert Preimage(k1, c1, v1).value == PREFIX + s1;
    assert Preimage(k2, c2, v2).value == PREFIX + s2;
    assert (PREFIX + s1)[|PREFIX|..] == s1 && (PREFIX + s2)[|PREFIX|..] == s2;
    FirstColonAfter(k1, v1 + c1);
    FirstColonAfter(k2, v2 + c2);
    if s1 == s2 {
      assert k1 == s1[..|k1|] == s2[..|k2|] == k2;
      assert v1 + c1 == s1[|k1| + 1..] == s2[|k2| + 1..] == v2 + c2;
    }
  }

  /** For one version, kind and canonical bytes are both determined by the preimage. */
  lemma TagSeparatesKinds(k1: string, c1: string, k2: string, c2: string, version: string)
    requires Preimage(k1, c1, version).Some?
    requires Preimage(k1, c1, version) == Preimage(k2, c2, version)
    ensures k1 == k2 && c1 == c2
  {
    PreimagesCoincide(k1, c1, version, k2, c2, version);
    assert c1 == (version + c1)[|version|..] && c2 == (version + c2)[|version|..];
  }

  /** Across versions they are not: the numbers 12 and 2 meet under versions v1 and v11. */
  lemma VersionsMayMeet()
    ensures Preimage("payload", "12", "v1") == Preimage("payload", "2", "v11")
    ensures Preimage("payload", "12", "v1").Some?
  {
    assert "v1" + "12" == "v11" + "2";
    PreimagesCoincide("payload", "12", "v1", "payload", "2", "v11");
  }
}
