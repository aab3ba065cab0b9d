/** The request/response protocol list the combinator registers at construction,
    and the name-collision rule registration enforces. */
module RequestProtocols {
  import opened NetworkTypes

  /** The list handed to the request/response protocols: the caller's own protocols,
      then warp sync when there is one, then block, state and light-client requests. */
  function RequestProtocolList(requestResponseProtocols: seq<ProtocolConfig>, warpSync: Option<ProtocolConfig>,
                               blockRequest: ProtocolConfig, stateRequest: ProtocolConfig,
                               lightClientRequest: ProtocolConfig): (r: seq<ProtocolConfig>)
    ensures |r| == |requestResponseProtocols| + (if warpSync.Some? then 1 else 0) + 3
    ensures r[..|requestResponseProtocols|] == requestResponseProtocols
    ensures warpSync.Some? ==> r[|requestResponseProtocols|] == warpSync.value
    ensures r[|r| - 3..] == [blockRequest, stateRequest, lightClientRequest]
  {
    requestResponseProtocols + (if warpSync.Some? then [warpSync.value] else [])
    + [blockRequest, stateRequest, lightClientRequest]
  }

  /** No two protocols in the list share a name. */
  ghost predicate NamesDistinct(protocols: seq<ProtocolConfig>)
  {
    forall i, j :: 0 <= i < j < |protocols| ==> protocols[i].name != protocols[j].name
  }

  function Names(protocols: seq<ProtocolConfig>): set<ProtocolName>
  {
    set i | 0 <= i < |protocols| :: protocols[i].name
  }

  /** Scanning from index `k`, the first name that repeats an earlier one. */
  function DuplicateFrom(protocols: seq<ProtocolConfig>, k: nat): Option<ProtocolName>
    requires k <= |protocols|
    decreases |protocols| - k
  {
    if k == |protocols| then Option.None
    else if protocols[k].name in Names(protocols[..k]) then Some(protocols[k].name)
    else DuplicateFrom(protocols, k + 1)
  }

  /** The name registration rejects, if any: scanning in registration order, the first
      name already taken by an earlier protocol. There is none exactly when all names
      are distinct; otherwise it is the name at the first position where the prefix
      stops being distinct. */
  function FirstDuplicate(protocols: seq<ProtocolConfig>): (r: Option<ProtocolName>)
    ensures r.None? <==> NamesDistinct(protocols)
    ensures r.Some? ==> exists j :: 0 <= j < |protocols| && protocols[j].name == r.value
                                     && NamesDistinct(protocols[..j]) && !NamesDistinct(protocols[..j + 1])
  {
    assert protocols[..0] == [];
    DuplicateFromSpec(protocols, 0);
    DuplicateFrom(protocols, 0)
  }

  lemma {:induction false} DuplicateFromSpec(protocols: seq<ProtocolConfig>, k: nat)
    requires k <= |protocols| && NamesDistinct(protocols[..k])
    ensures DuplicateFrom(protocols, k).None? <==> NamesDistinct(protocols)
    ensures DuplicateFrom(protocols, k).Some? ==>
              exists j :: k <= j < |protocols| && protocols[j].name == DuplicateFrom(protocols, k).value
                          && NamesDistinct(protocols[..j]) && !NamesDistinct(protocols[..j + 1])
    decreases |protocols| - k
  {
    if k == |protocols| {
      assert protocols[..k] == protocols;
    } else if protocols[k].name in Names(protocols[..k]) {
      var i :| 0 <= i < k && protocols[..k][i].name == protocols[k].name;
      assert protocols[..k + 1][i].name == protocols[..k + 1][k].name;
      assert !NamesDistinct(protocols[..k + 1]);
      assert protocols[i].name == protocols[k].name;
      assert !NamesDistinct(protocols);
    } else {
      var prefix, longer := protocols[..k], protocols[..k + 1];
      forall i, j | 0 <= i < j < |longer|
        ensures longer[i].name != longer[j].name
      {
        if j < k {
          assert prefix[i].name != prefix[j].name;
        } else {
          assert prefix[i].name in Names(prefix);
        }
      }
      DuplicateFromSpec(protocols, k + 1);
    }
  }

  /** Registration's collision check, as a scan that remembers the names seen so far. */
  method FindDuplicateProtocol(protocols: seq<ProtocolConfig>) returns (dup: Option<ProtocolName>)
    ensures dup == FirstDuplicate(protocols)
    ensures dup.None? <==> NamesDistinct(protocols)
  {
    var seen: set<ProtocolName> := {};
    var k := 0;
    assert protocols[..0] == [];
    while k < |protocols|
      invariant k <= |protocols|
      invariant seen == Names(protocols[..k])
      invariant DuplicateFrom(protocols, k) == FirstDuplicate(protocols)
    {
      if protocols[k].name in seen {
        return Some(protocols[k].name);
      }
      assert Names(protocols[..k + 1]) == Names(protocols[..k]) + {protocols[k].name} by {
        assert protocols[..k + 1] == protocols[..k] + [protocols[k]];
      }
      seen := seen + {protocols[k].name};
      k := k + 1;
    }
    return Option.None;
  }

  /** A caller-supplied protocol can never take the name of one of the built-in
      block, state or light-client request protocols: the assembled list then has a
      collision, and registration rejects it. */
  lemma {:induction false} BuiltinNameCollision(requestResponseProtocols: seq<ProtocolConfig>, warpSync: Option<ProtocolConfig>,
                                                blockRequest: ProtocolConfig, stateRequest: ProtocolConfig,
                                                lightClientRequest: ProtocolConfig, i: nat)
    requires i < |requestResponseProtocols|
    requires requestResponseProtocols[i].name in {blockRequest.name, stateRequest.name, lightClientRequest.name}
    ensures FirstDuplicate(RequestProtocolList(requestResponseProtocols, warpSync, blockRequest, stateRequest,
                                               lightClientRequest)).Some?
  {
    var list := RequestProtocolList(requestResponseProtocols, warpSync, blockRequest, stateRequest, lightClientRequest);
    var n := |list|;
    assert list[i] == requestResponseProtocols[i];
    assert list[n - 3] == blockRequest && list[n - 2] == stateRequest && list[n - 1] == lightClientRequest by {
      assert list[n - 3..] == [blockRequest, stateRequest, lightClientRequest];
    }
    if requestResponseProtocols[i].name == blockRequest.name {
      assert list[i].name == list[n - 3].name;
    } else if requestResponseProtocols[i].name == stateRequest.name {
      assert list[i].name == list[n - 2].name;
    } else {
      assert list[i].name == list[n - 1].name;
    }
  }
}
