/**
 * Matrix user IDs on a homeserver, `@localpart:server`, and the inverse
 * extraction of the localpart.
 */
module MatrixIds {
  import opened Results

  /** The Matrix ID of a localpart on a homeserver: `@localpart:server`. */
  function Mxid(localpart: string, server: string): (r: string)
    ensures |r| == |localpart| + |server| + 2
  {
    "@" + localpart + ":" + server
  }

  /** The localpart of a Matrix ID on `server`: the part between `@` and `:server`; none for other IDs. */
  function LocalpartOf(mxid: string, server: string): (r: Option<string>)
    ensures r.Some? ==> Mxid(r.value, server) == mxid
  {
    var suffix := ":" + server;
    if |mxid| >= 1 + |suffix| && mxid[0] == '@' && mxid[|mxid| - |suffix|..] == suffix
    then
      var l := mxid[1..|mxid| - |suffix|];
      assert mxid == "@" + l + suffix;
      Some(l)
    else None
  }

  /** Extracting the localpart of a Matrix ID built from it gives it back. */
  lemma LocalpartOfMxid(localpart: string, server: string)
    ensures LocalpartOf(Mxid(localpart, server), server) == Some(localpart)
  {
    var m := Mxid(localpart, server);
    assert m[|m| - |":" + server|..] == ":" + server;
    assert m[1..|m| - |":" + server|] == localpart;
  }

  /** Two localparts on the same homeserver never share a Matrix ID. */
  lemma MxidInjective(a: string, b: string, server: string)
    requires Mxid(a, server) == Mxid(b, server)
    ensures a == b
  {
    assert Mxid(a, server)[1..1 + |a|] == a;
    assert Mxid(b, server)[1..1 + |b|] == b;
  }
}
