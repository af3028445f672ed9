/** The shipping-quote cache of backend/shipping.go: its entries' lifetime, the handler that consults it,
    and what a cached answer is worth. Instants and the time to live are integers (nanoseconds). */
module QuoteCache {
  import opened Wrappers
  import opened GoStrings
  import opened Packages
  import opened QuoteKeys

  // ----- The cache -----

  datatype Entry<Q> = Entry(at: int, quotes: Q)

  /** One mutex-protected step: a store, or one round of the collector. */
  datatype Op<Q> = Put(key: string, quotes: Q, at: int) | Gc(at: int)

  function Apply<Q>(ttl: int, items: map<string, Entry<Q>>, op: Op<Q>): map<string, Entry<Q>> {
    match op
    case Put(key, quotes, at) => items[key := Entry(at, quotes)]
    case Gc(at) => map k | k in items && !(at - items[k].at > ttl) :: items[k]
  }

  function Lookup<Q>(ttl: int, items: map<string, Entry<Q>>, key: string, now: int): Option<Q> {
    if key !in items || now - items[key].at > ttl then None else Some(items[key].quotes)
  }

  function Contained<Q>(ttl: int, ops: seq<Op<Q>>): map<string, Entry<Q>> {
    if ops == [] then map[] else Apply(ttl, Contained(ttl, ops[..|ops| - 1]), ops[|ops| - 1])
  }

  datatype Request = Request(origin: string, dest: string, refs: seq<CartRef>)

  // The key of a request whose cart packs.
  function KeyOf(r: Request): string {
    Key(r.origin, r.dest, if Packed(r.refs).Ok? then Packed(r.refs).value else [])
  }

  /** What uses the cache: a quote request, with the instants of its lookup and of its store and the
      carrier as it answers then; or a round of the collector. */
  datatype Call<Q> =
    | Quote(r: Request, now: int, upstream: (string, string, Shipment) -> Option<Q>, later: int)
    | Collection(at: int)

  // What a request or a collection does to the cache: an answer fresh from the carrier is stored.
  datatype Step<Q> = Answered(r: Request, quotes: Q, at: int) | Collected(at: int)

  function OpOf<Q>(s: Step<Q>): Op<Q> {
    match s
    case Answered(r, quotes, at) => Put(KeyOf(r), quotes, at)
    case Collected(at) => Gc(at)
  }

  function Ops<Q>(steps: seq<Step<Q>>): (ops: seq<Op<Q>>)
    ensures |ops| == |steps|
  {
    seq(|steps|, i requires 0 <= i < |steps| => OpOf(steps[i]))
  }

  // The items after these steps on an empty cache.
  function Items<Q>(ttl: int, steps: seq<Step<Q>>): map<string, Entry<Q>> {
    Contained(ttl, Ops(steps))
  }

  // The steps that calls made one after another take.
  function Steps<Q>(ttl: int, calls: seq<Call<Q>>): seq<Step<Q>> {
    if calls == [] then []
    else
      var n := |calls| - 1;
      var before := Steps(ttl, calls[..n]);
      match calls[n]
      case Collection(at) => before + [Collected(at)]
      case Quote(r, now, upstream, later) =>
        var answer := Answer(ttl, Items(ttl, before), r, now, upstream);
        if answer.Ok? && !answer.value.1 then before + [Answered(r, answer.value.0, later)] else before
  }

  class Cache<Q(==)> {
    const ttl: int
    var items: map<string, Entry<Q>>
    ghost var calls: seq<Call<Q>>

    // The items are what the calls so far have left.
    ghost predicate Valid()
      reads this
    {
      items == Items(ttl, Steps(ttl, calls))
    }

    constructor (ttl: int)
      ensures this.ttl == ttl && items == map[] && calls == [] && Valid()
    {
      this.ttl := ttl;
      items := map[];
      calls := [];
    }

    method Get(key: string, now: int) returns (r: Option<Q>)
      ensures r == Lookup(ttl, items, key, now)
    {
      if key !in items || now - items[key].at > ttl {
        return None;
      }
      return Some(items[key].quotes);
    }

    method Store(key: string, quotes: Q, now: int)
      modifies this`items
      ensures items == Apply(ttl, old(items), Put(key, quotes, now))
    {
      items := items[key := Entry(now, quotes)];
    }

    method Collect(now: int)
      requires Valid()
      modifies this
      ensures items == Apply(ttl, old(items), Gc(now))
      ensures Valid() && calls == old(calls) + [Collection(now)]
    {
      var todo := items.Keys;
      while todo != {}
        invariant todo <= items.Keys <= old(items).Keys
        invariant forall k | k in items :: items[k] == old(items)[k]
        invariant forall k | k in old(items) && k !in todo :: k in items <==> !(now - old(items)[k].at > ttl)
        invariant calls == old(calls)
      {
        var k :| k in todo;
        if now - items[k].at > ttl {
          items := items - {k};
        }
        todo := todo - {k};
      }
      calls := calls + [Collection(now)];
      StepAppends(ttl, old(calls), Collection(now));
    }

    /** The quote handler, from a request that passed its zip check to the options it answers with and
        whether they were cached. `upstream` is the carrier's calculator: it may fail. */
    method HandleQuote(req: Request, now: int, upstream: (string, string, Shipment) -> Option<Q>, later: int)
      returns (r: Result<(Q, bool), QuoteError>)
      requires Valid()
      modifies this
      ensures r == Answer(ttl, old(items), req, now, upstream)
      ensures items == if r.Ok? && !r.value.1 then Apply(ttl, old(items), Put(KeyOf(req), r.value.0, later))
                       else old(items)
      ensures Valid() && calls == old(calls) + [Quote(req, now, upstream, later)]
    {
      hide Steps, Contained, Key;
      ghost var call := Quote(req, now, upstream, later);
      calls := calls + [call];
      StepAppends(ttl, old(calls), call);
      var pkgs := BuildPackages(req.refs);
      if pkgs.Err? {
        return Err(BadCart(pkgs.error));
      }
      var key := CacheKey(req.origin, req.dest, pkgs.value);
      var hit := Get(key, now);
      if hit.Some? {
        return Ok((hit.value, true));
      }
      var vol, insurance := MergeVolumes(pkgs.value);
      var raw := upstream(req.origin, req.dest, Shipment(vol, insurance));
      if raw.None? {
        return Err(UpstreamFailed);
      }
      Store(key, raw.value, later);
      return Ok((raw.value, false));
    }
  }

  // What one call leaves of the items.
  function Serve<Q>(ttl: int, items: map<string, Entry<Q>>, c: Call<Q>): map<string, Entry<Q>> {
    if c.Collection? then Apply(ttl, items, Gc(c.at))
    else
      var answer := Answer(ttl, items, c.r, c.now, c.upstream);
      if answer.Ok? && !answer.value.1 then Apply(ttl, items, Put(KeyOf(c.r), answer.value.0, c.later)) else items
  }

  lemma StepAppends<Q>(ttl: int, calls: seq<Call<Q>>, call: Call<Q>)
    ensures Items(ttl, Steps(ttl, calls + [call])) == Serve(ttl, Items(ttl, Steps(ttl, calls)), call)
  {
    hide Answer, KeyOf, Apply, Items;
    var more := calls + [call];
    assert more[..|calls|] == calls && more[|more| - 1] == call;
    var before := Steps(ttl, calls);
    if call.Collection? {
      ItemsAppend(ttl, before, Collected(call.at));
    } else {
      var answer := Answer(ttl, Items(ttl, before), call.r, call.now, call.upstream);
      if answer.Ok? && !answer.value.1 {
        ItemsAppend(ttl, before, Answered(call.r, answer.value.0, call.later));
      }
    }
  }

  lemma ItemsAppend<Q>(ttl: int, steps: seq<Step<Q>>, s: Step<Q>)
    ensures Items(ttl, steps + [s]) == Apply(ttl, Items(ttl, steps), OpOf(s))
  {
    hide Apply, OpOf;
    assert Ops(steps + [s])[..|steps|] == Ops(steps);
  }

  datatype QuoteError = BadCart(reason: PackError) | UpstreamFailed

  function Answer<Q>(ttl: int, items: map<string, Entry<Q>>, r: Request, now: int,
                     upstream: (string, string, Shipment) -> Option<Q>): Result<(Q, bool), QuoteError>
  {
    var pkgs := Packed(r.refs);
    if pkgs.Err? then Err(BadCart(pkgs.error)) else
    var hit := Lookup(ttl, items, KeyOf(r), now);
    if hit.Some? then Ok((hit.value, true)) else
    var raw := upstream(r.origin, r.dest, Merged(pkgs.value));
    if raw.None? then Err(UpstreamFailed) else Ok((raw.value, false))
  }

  /** A quote request is refused for what the packaging finds wrong with it; else answered by an entry under its
      key no older than the lifetime; else by the carrier, asked for the zips and the merged box, if it
      answers. */
  lemma AnswerOutcome<Q>(ttl: int, items: map<string, Entry<Q>>, r: Request, now: int,
                         upstream: (string, string, Shipment) -> Option<Q>)
    ensures var answer := Answer(ttl, items, r, now, upstream); var pkgs := Packed(r.refs);
            && (pkgs.Err? ==> answer == Err(BadCart(pkgs.error)))
            && (pkgs.Ok? ==>
                  var key := Key(r.origin, r.dest, pkgs.value);
                  var young := key in items && now - items[key].at <= ttl;
                  && (young ==> answer == Ok((items[key].quotes, true)))
                  && (!young ==> answer == match upstream(r.origin, r.dest, Merged(pkgs.value))
                                   case Some(quotes) => Ok((quotes, false))
                                   case None => Err(UpstreamFailed)))
  {
    hide Packed, Merged, Key;
  }

  // ----- Runs: what a lookup returns -----

  // The clock never runs backwards, and now is not before the last step.
  predicate Ordered<Q>(ops: seq<Op<Q>>, now: int) {
    ops == [] || (ops[|ops| - 1].at <= now && Ordered(ops[..|ops| - 1], ops[|ops| - 1].at))
  }

  // The last store under a key, if it is at most ttl old: the collector plays no part in it.
  function Fresh<Q>(ttl: int, ops: seq<Op<Q>>, key: string, now: int): Option<Q> {
    if ops == [] then None
    else
      var last := ops[|ops| - 1];
      if last.Put? && last.key == key then (if now - last.at > ttl then None else Some(last.quotes))
      else Fresh(ttl, ops[..|ops| - 1], key, now)
  }

  // An entry that is gone is one whose last store is too old; an entry that is there is the last store.
  lemma {:induction false} LookupIsFresh<Q>(ttl: int, ops: seq<Op<Q>>, key: string, now: int)
    requires Ordered(ops, now)
    ensures Lookup(ttl, Contained(ttl, ops), key, now) == Fresh(ttl, ops, key, now)
  {
    if ops != [] {
      var init, last := ops[..|ops| - 1], ops[|ops| - 1];
      OrderedLater(init, last.at, now);
      LookupIsFresh(ttl, init, key, now);
    }
  }

  lemma OrderedLater<Q>(ops: seq<Op<Q>>, t: int, now: int)
    requires Ordered(ops, t) && t <= now
    ensures Ordered(ops, now)
  {
  }

  function WithoutGc<Q>(ops: seq<Op<Q>>): seq<Op<Q>> {
    if ops == [] then []
    else WithoutGc(ops[..|ops| - 1]) + (if ops[|ops| - 1].Gc? then [] else [ops[|ops| - 1]])
  }

  lemma {:induction false} FreshWithoutGc<Q>(ttl: int, ops: seq<Op<Q>>, key: string, now: int)
    requires Ordered(ops, now)
    ensures Fresh(ttl, WithoutGc(ops), key, now) == Fresh(ttl, ops, key, now) && Ordered(WithoutGc(ops), now)
  {
    if ops != [] {
      var init, last := ops[..|ops| - 1], ops[|ops| - 1];
      OrderedLater(init, last.at, now);
      FreshWithoutGc(ttl, init, key, now);
      FreshWithoutGc(ttl, init, key, last.at);
      if !last.Gc? {
        assert WithoutGc(ops)[..|WithoutGc(ops)| - 1] == WithoutGc(init);
      } else {
        assert WithoutGc(ops) == WithoutGc(init);
      }
    }
  }

  /** Collecting expired entries, anywhere in a run, never changes what a lookup returns. */
  lemma CollectionUnobservable<Q>(ttl: int, ops: seq<Op<Q>>, key: string, now: int)
    requires Ordered(ops, now)
    ensures Lookup(ttl, Contained(ttl, ops), key, now)
         == Lookup(ttl, Contained(ttl, WithoutGc(ops)), key, now)
         == Fresh(ttl, ops, key, now)
  {
    LookupIsFresh(ttl, ops, key, now);
    FreshWithoutGc(ttl, ops, key, now);
    LookupIsFresh(ttl, WithoutGc(ops), key, now);
  }

  // ----- Runs: a hit is correct -----

  // A request whose zips are digits and whose ids spell out no field of a key.
  ghost predicate PlainRequest(r: Request) {
    AllDigits(r.origin) && AllDigits(r.dest) && forall i | 0 <= i < |r.refs| :: PlainId(r.refs[i].productID)
  }

  lemma PlainPackages(r: Request)
    requires PlainRequest(r) && Packed(r.refs).Ok?
    ensures var pkgs := Packed(r.refs).value; Built(pkgs) && Counted(pkgs) && PlainIds(pkgs)
  {
    hide PlainId;
    var pkgs := Packed(r.refs).value;
    NoError(r.refs);
    ConsolidateKeeps(r.refs);
    forall i | 0 <= i < |pkgs| ensures PlainId(pkgs[i].id) {
      assert Ids(pkgs)[i] == pkgs[i].id;
      Appears(r.refs, pkgs[i].id);
    }
  }

  lemma {:induction false} Appears(refs: seq<CartRef>, id: string)
    requires id in FirstAppearances(refs)
    ensures exists i :: 0 <= i < |refs| && refs[i].productID == id
  {
    if refs != [] {
      var n := |refs| - 1;
      if refs[n].productID != id {
        Appears(refs[..n], id);
        var i :| 0 <= i < |refs[..n]| && refs[..n][i].productID == id;
        assert refs[i].productID == id;
      }
    }
  }

  // Plain requests with one key ask for one shipment.
  lemma SameKeySameShipment(r: Request, r': Request)
    requires PlainRequest(r) && PlainRequest(r') && Packed(r.refs).Ok? && Packed(r'.refs).Ok? && KeyOf(r) == KeyOf(r')
    ensures r.origin == r'.origin && r.dest == r'.dest && Packed(r.refs) == Packed(r'.refs)
  {
    hide PlainIds, Key;
    var pkgs, pkgs' := Packed(r.refs).value, Packed(r'.refs).value;
    PlainPackages(r);
    PlainPackages(r');
    KeyInjective(r.origin, r.dest, pkgs, r'.origin, r'.dest, pkgs');
    forall i | 0 <= i < |pkgs| ensures pkgs[i] == pkgs'[i] {
      assert Contents(pkgs)[i] == Contents(pkgs')[i];
    }
    assert pkgs == pkgs';
  }

  lemma {:induction false} FreshHasSource<Q>(ttl: int, ops: seq<Op<Q>>, key: string, now: int) returns (i: nat)
    requires Ordered(ops, now) && Fresh(ttl, ops, key, now).Some?
    ensures i < |ops| && ops[i].Put? && ops[i].key == key && ops[i].quotes == Fresh(ttl, ops, key, now).value
    ensures 0 <= now - ops[i].at <= ttl
    ensures forall j | i < j < |ops| :: ops[j].Put? ==> ops[j].key != key
  {
    var init, last := ops[..|ops| - 1], ops[|ops| - 1];
    if last.Put? && last.key == key {
      i := |ops| - 1;
    } else {
      OrderedLater(init, last.at, now);
      i := FreshHasSource(ttl, init, key, now);
    }
  }

  // Every stored answer was to a plain request whose cart packs.
  ghost predicate PlainAnswers<Q>(steps: seq<Step<Q>>) {
    forall i | 0 <= i < |steps| && steps[i].Answered? :: PlainRequest(steps[i].r) && Packed(steps[i].r.refs).Ok?
  }

  /** A hit is correct, however lookups, stores and collections interleave, as long as no product id spells
      out a field of a key: what is returned was answered at most ttl ago, by the latest answer under that
      key, to a request with the same zips, the same packages, the same volume and the same insurance. */
  lemma HitIsCorrect<Q>(ttl: int, steps: seq<Step<Q>>, r: Request, now: int) returns (i: nat)
    requires Ordered(Ops(steps), now) && PlainAnswers(steps) && PlainRequest(r) && Packed(r.refs).Ok?
    requires Lookup(ttl, Items(ttl, steps), KeyOf(r), now).Some?
    ensures i < |steps| && steps[i].Answered? && 0 <= now - steps[i].at <= ttl
    ensures Some(steps[i].quotes) == Lookup(ttl, Items(ttl, steps), KeyOf(r), now)
    ensures steps[i].r.origin == r.origin && steps[i].r.dest == r.dest && Packed(steps[i].r.refs) == Packed(r.refs)
    ensures Merged(Packed(steps[i].r.refs).value) == Merged(Packed(r.refs).value)
    ensures forall j | i < j < |steps| && steps[j].Answered? :: KeyOf(steps[j].r) != KeyOf(r)
  {
    hide PlainRequest, KeyOf, Merged, Packed;
    LookupIsFresh(ttl, Ops(steps), KeyOf(r), now);
    i := FreshHasSource(ttl, Ops(steps), KeyOf(r), now);
    SameKeySameShipment(r, steps[i].r);
    forall j | i < j < |steps| && steps[j].Answered? ensures KeyOf(steps[j].r) != KeyOf(r) {
      assert Ops(steps)[j].Put?;
    }
  }

  // ----- Runs of the handler -----

  function Start<Q>(c: Call<Q>): int {
    if c.Quote? then c.now else c.at
  }

  function End<Q>(c: Call<Q>): int {
    if c.Quote? then c.later else c.at
  }

  // The clock never runs backwards over the calls, and now is not before the last one's end.
  predicate Timely<Q>(calls: seq<Call<Q>>, now: int) {
    if calls == [] then true
    else
      var last := calls[|calls| - 1];
      Start(last) <= End(last) <= now && Timely(calls[..|calls| - 1], Start(last))
  }

  lemma {:induction false} TimelySteps<Q>(ttl: int, calls: seq<Call<Q>>, now: int)
    requires Timely(calls, now)
    ensures Ordered(Ops(Steps(ttl, calls)), now)
  {
    hide Answer, KeyOf;
    if calls != [] {
      var n := |calls| - 1;
      var before, steps := Steps(ttl, calls[..n]), Steps(ttl, calls);
      TimelySteps(ttl, calls[..n], Start(calls[n]));
      OrderedLater(Ops(before), Start(calls[n]), End(calls[n]));
      OrderedLater(Ops(before), Start(calls[n]), now);
      if steps != before {
        assert Ops(steps)[..|Ops(steps)| - 1] == Ops(before);
      }
    }
  }

  // Every stored answer is what the carrier said to the shipment of the request it was stored for.
  lemma {:induction false} AnswerHasCall<Q>(ttl: int, calls: seq<Call<Q>>, k: nat) returns (i: nat)
    requires k < |Steps(ttl, calls)| && Steps(ttl, calls)[k].Answered?
    ensures i < |calls| && calls[i].Quote?
    ensures var s, c := Steps(ttl, calls)[k], calls[i];
            && s.r == c.r && s.at == c.later && Packed(c.r.refs).Ok?
            && c.upstream(c.r.origin, c.r.dest, Merged(Packed(c.r.refs).value)) == Some(s.quotes)
  {
    hide KeyOf, Packed, Merged, Items;
    var n := |calls| - 1;
    if k < |Steps(ttl, calls[..n])| {
      i := AnswerHasCall(ttl, calls[..n], k);
    } else {
      i := n;
    }
  }

  /** Over any sequence of quote requests and collections, as long as no product id spells out a field of a
      key, every answer given from the cache is one the carrier itself gave, at most ttl earlier, for the
      same zips and the same merged shipment. */
  lemma CachedAnswersAreTheCarriers<Q>(ttl: int, calls: seq<Call<Q>>, r: Request, now: int,
                                       upstream: (string, string, Shipment) -> Option<Q>) returns (i: nat)
    requires Timely(calls, now) && PlainRequest(r) && forall c | c in calls && c.Quote? :: PlainRequest(c.r)
    requires var answer := Answer(ttl, Items(ttl, Steps(ttl, calls)), r, now, upstream); answer.Ok? && answer.value.1
    ensures i < |calls| && calls[i].Quote? && 0 <= now - calls[i].later <= ttl
    ensures var quotes := Answer(ttl, Items(ttl, Steps(ttl, calls)), r, now, upstream).value.0;
            Packed(r.refs).Ok? && calls[i].upstream(r.origin, r.dest, Merged(Packed(r.refs).value)) == Some(quotes)
  {
    hide PlainRequest, KeyOf, Packed, Merged, Steps, Ops, Items;
    var steps := Steps(ttl, calls);
    TimelySteps(ttl, calls, now);
    forall k: nat | k < |steps| && steps[k].Answered?
      ensures PlainRequest(steps[k].r) && Packed(steps[k].r.refs).Ok?
    {
      var j := AnswerHasCall(ttl, calls, k);
      assert calls[j] in calls;
    }
    var k := HitIsCorrect(ttl, steps, r, now);
    i := AnswerHasCall(ttl, calls, k);
  }

  lemma SpellingHasBar(u: string, m: nat, v: string)
    ensures '|' in Spelling(u, m, v)
  {
    assert Spelling(u, m, v)[|u| + 1 + |FormatNat(m)|] == '|';
  }

  lemma NoBarIsPlain(id: string)
    requires '|' !in id
    ensures PlainId(id)
  {
    forall u, m: nat, v ensures '|' in Spelling(u, m, v) {
      SpellingHasBar(u, m, v);
    }
  }

  /** The restriction is needed: after a request for one product whose id spells out a field, any request
      for the two products it reads as is answered with the first one's quotes for a whole ttl, whatever
      the carrier would say; and the two never ship the same. The second request may be plain. */
  lemma WrongHit<Q>(ttl: int, origin: string, dest: string, a: CartRef, b: CartRef, first: Call<Q>, now: int,
                    upstream: (string, string, Shipment) -> Option<Q>)
    requires LineError(a).None? && LineError(b).None? && a.productID != b.productID
    requires var joined := CartRef(Spelling(a.productID, a.quantity, b.productID), b.quantity);
             first.Quote? && first.r == Request(origin, dest, [joined]) && now - first.later <= ttl
    requires Packed(first.r.refs).Ok? ==> first.upstream(origin, dest, Merged(Packed(first.r.refs).value)).Some?
    ensures Packed(first.r.refs).Ok? && Packed([a, b]).Ok?
    ensures Answer(ttl, Items(ttl, Steps(ttl, [first])), Request(origin, dest, [a, b]), now, upstream)
         == Ok((first.upstream(origin, dest, Merged(Packed(first.r.refs).value)).value, true))
    ensures Merged(Packed(first.r.refs).value) != Merged(Packed([a, b]).value)
  {
    hide Packed, Merged, Key, Steps, LineError, Contained, Spelling;
    CollidingCarts(origin, dest, a, b);
    FirstAnswer<Q>(ttl);
    StepAppends(ttl, [], first);
    assert [] + [first] == [first];
  }

  lemma FirstAnswer<Q>(ttl: int)
    ensures Items<Q>(ttl, Steps(ttl, [])) == map[]
  {
  }
}
