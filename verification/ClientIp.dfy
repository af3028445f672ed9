/** The address a request is billed to (backend/main.go): the right-to-left walk over
    X-Forwarded-For. Parsing addresses and matching them against the trusted ranges is Go's net
    package; here both are arbitrary functions. */
module ClientIp {
  import opened Wrappers
  import opened GoStrings

  datatype Net<!A> = Net(hostOf: string -> Option<string>, parse: string -> Option<A>, trusted: A -> bool) {
    predicate InTrusted(ip: Option<A>) {
      ip.Some? && trusted(ip.value)
    }

    // An entry the walk passes over: blank, or one of our own proxies.
    predicate Skips(part: string) {
      var c := TrimSpace(part);
      c == "" || InTrusted(parse(c))
    }

    // An entry that makes the walk give up.
    predicate Garbled(part: string) {
      var c := TrimSpace(part);
      c != "" && parse(c).None?
    }

    // An entry the walk answers with.
    predicate Answers(part: string) {
      var c := TrimSpace(part);
      c != "" && parse(c).Some? && !trusted(parse(c).value)
    }
  }

  datatype Verdict = Client(address: string) | GaveUp | NoneFound

  function Judge<A>(net: Net<A>, parts: seq<string>): Verdict {
    if parts == [] then NoneFound
    else
      var last := parts[|parts| - 1];
      if net.Skips(last) then Judge(net, parts[..|parts| - 1])
      else if net.Garbled(last) then GaveUp
      else Client(TrimSpace(last))
  }

  function PeerHost<A>(net: Net<A>, remoteAddr: string): string {
    var host := net.hostOf(remoteAddr);
    if host.Some? then host.value else remoteAddr
  }

  function Billed<A>(net: Net<A>, remoteAddr: string, xff: string): string {
    var peer := PeerHost(net, remoteAddr);
    if !net.InTrusted(net.parse(peer)) then peer
    else
      var v := Judge(net, Split(xff, ','));
      if v.Client? then v.address else peer
  }

  lemma JudgeEmpty<A>(net: Net<A>)
    ensures Judge(net, []) == NoneFound
  {
  }

  lemma JudgeStep<A>(net: Net<A>, parts: seq<string>, i: nat)
    requires i < |parts|
    ensures Judge(net, parts[..i + 1])
         == if net.Skips(parts[i]) then Judge(net, parts[..i])
            else if net.Garbled(parts[i]) then GaveUp else Client(TrimSpace(parts[i]))
  {
    assert parts[..i + 1][..i] == parts[..i];
  }

  /** A peer that does not parse, or is no proxy of ours, is billed itself, whatever the header says. Behind
      one of our proxies the rightmost entry that is neither blank nor a proxy of ours is billed, unless it
      does not parse or there is none: then the proxy is. */
  method ClientIP<A>(net: Net<A>, remoteAddr: string, xff: string) returns (r: string)
    ensures r == Billed(net, remoteAddr, xff)
    ensures var peer := (if net.hostOf(remoteAddr).Some? then net.hostOf(remoteAddr).value else remoteAddr);
            net.parse(peer).None? || !net.trusted(net.parse(peer).value) ==> r == peer
    ensures var peer := (if net.hostOf(remoteAddr).Some? then net.hostOf(remoteAddr).value else remoteAddr);
            var parts := Split(xff, ',');
            && net.parse(peer).Some? && net.trusted(net.parse(peer).value)
            && (forall j | 0 <= j < |parts| ::
                  TrimSpace(parts[j]) == ""
                  || (net.parse(TrimSpace(parts[j])).Some? && net.trusted(net.parse(TrimSpace(parts[j])).value)))
            ==> r == peer
    ensures var peer := (if net.hostOf(remoteAddr).Some? then net.hostOf(remoteAddr).value else remoteAddr);
            var parts := Split(xff, ',');
            net.parse(peer).Some? && net.trusted(net.parse(peer).value) ==>
              forall i |
                && 0 <= i < |parts| && TrimSpace(parts[i]) != ""
                && (net.parse(TrimSpace(parts[i])).Some? ==> !net.trusted(net.parse(TrimSpace(parts[i])).value))
                && (forall j | i < j < |parts| ::
                      TrimSpace(parts[j]) == ""
                      || (net.parse(TrimSpace(parts[j])).Some? && net.trusted(net.parse(TrimSpace(parts[j])).value))) ::
                r == if net.parse(TrimSpace(parts[i])).Some? then TrimSpace(parts[i]) else peer
  {
    hide TrimSpace, Split, Judge;
    JudgeEmpty(net);
    var host := net.hostOf(remoteAddr);
    var peerHost := if host.Some? then host.value else remoteAddr;
    var peerIP := net.parse(peerHost);
    if !net.InTrusted(peerIP) {
      BilledExactly(net, remoteAddr, xff);
      return peerHost;
    }
    if xff == "" {
      BlankHeader(net);
      BilledExactly(net, remoteAddr, xff);
      return peerHost;
    }
    var parts := Split(xff, ',');
    assert parts[..|parts|] == parts;
    for i := |parts| downto 0
      invariant Judge(net, parts) == Judge(net, parts[..i])
    {
      JudgeStep(net, parts, i);
      var candidate := TrimSpace(parts[i]);
      if candidate == "" {
        continue;
      }
      var ip := net.parse(candidate);
      if ip.None? {
        BilledExactly(net, remoteAddr, xff);
        return peerHost;
      }
      if !net.InTrusted(ip) {
        BilledExactly(net, remoteAddr, xff);
        return candidate;
      }
    }
    assert parts[..0] == [];
    BilledExactly(net, remoteAddr, xff);
    return peerHost;
  }

  lemma BlankHeader<A>(net: Net<A>)
    ensures Judge(net, Split("", ',')) == NoneFound
  {
    assert Split("", ',') == [""];
    assert TrimSpace("") == "";
    assert [""][..0] == [];
  }

  // The entry at i settles the walk: everything to its right is passed over, it is not.
  ghost predicate Decides<A>(net: Net<A>, parts: seq<string>, i: int) {
    0 <= i < |parts| && !net.Skips(parts[i]) && forall j | i < j < |parts| :: net.Skips(parts[j])
  }

  lemma {:induction false} JudgeAt<A>(net: Net<A>, parts: seq<string>, i: int)
    requires Decides(net, parts, i)
    ensures Judge(net, parts) == if net.Garbled(parts[i]) then GaveUp else Client(TrimSpace(parts[i]))
  {
    hide TrimSpace;
    if i < |parts| - 1 {
      var init := parts[..|parts| - 1];
      forall j | i < j < |init| ensures net.Skips(init[j]) {
        assert init[j] == parts[j];
      }
      assert net.Skips(parts[|parts| - 1]);
      JudgeAt(net, init, i);
    }
  }

  lemma {:induction false} JudgeNone<A>(net: Net<A>, parts: seq<string>)
    requires forall i | 0 <= i < |parts| :: net.Skips(parts[i])
    ensures Judge(net, parts) == NoneFound
  {
    if parts != [] {
      JudgeNone(net, parts[..|parts| - 1]);
    }
  }

  lemma {:induction false} SomeDecides<A>(net: Net<A>, parts: seq<string>, k: int) returns (i: int)
    requires 0 <= k < |parts| && !net.Skips(parts[k])
    ensures Decides(net, parts, i)
    decreases |parts| - k
  {
    if j :| k < j < |parts| && !net.Skips(parts[j]) {
      i := SomeDecides(net, parts, j);
    } else {
      i := k;
    }
  }

  /** The walk answers with the rightmost entry that is neither blank nor trusted; it falls back to
      the peer exactly when that entry is malformed or there is none. */
  lemma RightmostDecides<A>(net: Net<A>, parts: seq<string>)
    ensures Judge(net, parts) == NoneFound <==> forall i | 0 <= i < |parts| :: net.Skips(parts[i])
    ensures Judge(net, parts) == GaveUp <==> exists i :: Decides(net, parts, i) && net.Garbled(parts[i])
    ensures forall c :: Judge(net, parts) == Client(c)
                   <==> exists i :: Decides(net, parts, i) && net.Answers(parts[i]) && TrimSpace(parts[i]) == c
  {
    hide TrimSpace;
    if k :| 0 <= k < |parts| && !net.Skips(parts[k]) {
      var i := SomeDecides(net, parts, k);
      JudgeAt(net, parts, i);
      assert forall j | Decides(net, parts, j) :: j == i;
    } else {
      JudgeNone(net, parts);
    }
  }

  // The address billed, by the peer and the header's entries alone.
  lemma BilledExactly<A>(net: Net<A>, remoteAddr: string, xff: string)
    ensures var peer := (if net.hostOf(remoteAddr).Some? then net.hostOf(remoteAddr).value else remoteAddr);
            net.parse(peer).None? || !net.trusted(net.parse(peer).value) ==> Billed(net, remoteAddr, xff) == peer
    ensures var peer := (if net.hostOf(remoteAddr).Some? then net.hostOf(remoteAddr).value else remoteAddr);
            var parts := Split(xff, ',');
            && net.parse(peer).Some? && net.trusted(net.parse(peer).value)
            && (forall j | 0 <= j < |parts| ::
                  TrimSpace(parts[j]) == ""
                  || (net.parse(TrimSpace(parts[j])).Some? && net.trusted(net.parse(TrimSpace(parts[j])).value)))
            ==> Billed(net, remoteAddr, xff) == peer
    ensures var peer := (if net.hostOf(remoteAddr).Some? then net.hostOf(remoteAddr).value else remoteAddr);
            var parts := Split(xff, ',');
            net.parse(peer).Some? && net.trusted(net.parse(peer).value) ==>
              forall i |
                && 0 <= i < |parts| && TrimSpace(parts[i]) != ""
                && (net.parse(TrimSpace(parts[i])).Some? ==> !net.trusted(net.parse(TrimSpace(parts[i])).value))
                && (forall j | i < j < |parts| ::
                      TrimSpace(parts[j]) == ""
                      || (net.parse(TrimSpace(parts[j])).Some? && net.trusted(net.parse(TrimSpace(parts[j])).value))) ::
                Billed(net, remoteAddr, xff)
                == if net.parse(TrimSpace(parts[i])).Some? then TrimSpace(parts[i]) else peer
  {
    hide TrimSpace, Split, Judge;
    var parts := Split(xff, ',');
    if forall j | 0 <= j < |parts| :: net.Skips(parts[j]) {
      JudgeNone(net, parts);
    }
    forall i | Decides(net, parts, i)
      ensures Judge(net, parts) == if net.Garbled(parts[i]) then GaveUp else Client(TrimSpace(parts[i]))
    {
      JudgeAt(net, parts, i);
    }
  }

  lemma {:induction false} JudgeAppend<A>(net: Net<A>, left: seq<string>, right: seq<string>)
    ensures Judge(net, left + right) == if Judge(net, right) == NoneFound then Judge(net, left) else Judge(net, right)
  {
    if right == [] {
      assert left + right == left;
    } else {
      var n := |right| - 1;
      JudgeAppend(net, left, right[..n]);
      assert (left + right)[..|left + right| - 1] == left + right[..n];
    }
  }

  /** Anything put in front of a header that has a deciding entry is ignored; in front of one that
      has none, it is judged as if it were the whole header. */
  lemma PrependedTextIsIgnored<A>(net: Net<A>, remoteAddr: string, prefix: string, xff: string)
    ensures Judge(net, Split(xff, ',')) != NoneFound
            ==> Billed(net, remoteAddr, prefix + "," + xff) == Billed(net, remoteAddr, xff)
    ensures Judge(net, Split(xff, ',')) == NoneFound
            ==> Billed(net, remoteAddr, prefix + "," + xff) == Billed(net, remoteAddr, prefix)
  {
    SplitJoin(prefix, ',', xff);
    JudgeAppend(net, Split(prefix, ','), Split(xff, ','));
  }
}
