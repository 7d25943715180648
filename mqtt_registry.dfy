/**
 * The broker client's subscription registry (`subscribers` in MQTTService.ts):
 * a map from topic pattern to the set of callbacks registered under it.
 * Closures cannot be compared in Dafny, so a callback is an opaque identifier
 * handed out by its owner.
 */
module MqttRegistry {
  import opened MqttTopics

  /** An opaque callback: which service registered it and that service's serial. */
  datatype CallbackId = CallbackId(owner: string, serial: nat)

  type Subscribers = map<string, set<CallbackId>>

  /** `cb` is registered under pattern `p`. */
  predicate Registered(reg: Subscribers, p: string, cb: CallbackId) {
    p in reg && cb in reg[p]
  }

  /** Every key holds at least one callback. */
  predicate NoEmpty(reg: Subscribers) {
    forall p :: p in reg ==> reg[p] != {}
  }

  /** `subscribe`: create the set if the pattern is new, then add the callback. */
  function Add(reg: Subscribers, p: string, cb: CallbackId): (r: Subscribers)
    ensures p in r && cb in r[p]
    ensures forall q, c :: Registered(r, q, c) <==> Registered(reg, q, c) || (q == p && c == cb)
    ensures forall q :: q != p ==> (q in r <==> q in reg)
    ensures forall q :: q in reg ==> q in r
  {
    reg[p := (if p in reg then reg[p] else {}) + {cb}]
  }

  /** `unsubscribe(p, cb)`: delete the callback, then drop the key when its set
      is missing or has become empty. */
  function Remove(reg: Subscribers, p: string, cb: CallbackId): (r: Subscribers)
    ensures forall q, c :: Registered(r, q, c) <==> Registered(reg, q, c) && !(q == p && c == cb)
    ensures p in r <==> p in reg && reg[p] - {cb} != {}
    ensures forall q :: q != p ==> (q in r <==> q in reg) && (q in r ==> r[q] == reg[q])
  {
    if p in reg && reg[p] - {cb} != {} then reg[p := reg[p] - {cb}] else reg - {p}
  }

  /** `unsubscribe(p)` without a callback: the key goes whatever it holds. */
  function Drop(reg: Subscribers, p: string): (r: Subscribers)
    ensures p !in r
    ensures forall q, c :: Registered(r, q, c) <==> Registered(reg, q, c) && q != p
  {
    reg - {p}
  }

  /** The SUBACK-failure path of `subscribe`: the callback is deleted from the set,
      but the key is kept even when the set becomes empty. */
  function Prune(reg: Subscribers, p: string, cb: CallbackId): (r: Subscribers)
    ensures forall q :: q in r <==> q in reg
    ensures forall q, c :: Registered(r, q, c) <==> Registered(reg, q, c) && !(q == p && c == cb)
  {
    if p in reg then reg[p := reg[p] - {cb}] else reg
  }

  /** What one `subscribe` leaves in the registry once the SUBACK has come back. */
  function SubscribeStep(reg: Subscribers, p: string, cb: CallbackId, subackOk: bool): (r: Subscribers)
    ensures p in r
    ensures forall q, c :: Registered(r, q, c) <==>
      if q == p && c == cb then subackOk else Registered(reg, q, c)
  {
    if subackOk then Add(reg, p, cb) else Prune(Add(reg, p, cb), p, cb)
  }

  /** Two different callbacks under one pattern are both kept, so a closure that is
      registered again without being removed first is invoked twice per message. */
  lemma DistinctCallbacksAccumulate(reg: Subscribers, p: string, c1: CallbackId, c2: CallbackId)
    requires c1 != c2
    ensures Add(Add(reg, p, c1), p, c2)[p] >= {c1, c2}
    ensures |Add(Add(reg, p, c1), p, c2)[p]| >= 2
  {
    var s := Add(Add(reg, p, c1), p, c2)[p];
    assert {c1, c2} <= s;
    assert |{c1, c2}| == 2;
    SubsetCard({c1, c2}, s);
  }

  lemma {:induction false} SubsetCard<T>(a: set<T>, b: set<T>)
    requires a <= b
    ensures |a| <= |b|
  {
    if a != {} {
      var x :| x in a;
      SubsetCard(a - {x}, b - {x});
    }
  }

  /** The patterns `resubscribeAll` asks the broker for: those with a callback. */
  function Live(reg: Subscribers): (ps: set<string>)
    ensures forall p :: p in ps <==> p in reg && reg[p] != {}
  {
    set p | p in reg && reg[p] != {}
  }

  /** Every (pattern, callback) pair `handleMessage` invokes for `topic`. */
  function Targets(reg: Subscribers, topic: string): (t: set<(string, CallbackId)>)
    ensures forall p, cb :: (p, cb) in t <==> Registered(reg, p, cb) && MatchesTopic(p, topic)
  {
    set p, cb | p in reg && cb in reg[p] && MatchesTopic(p, topic) :: (p, cb)
  }

  /** Subscribing the same callback twice registers it once. */
  lemma AddIdempotent(reg: Subscribers, p: string, cb: CallbackId)
    ensures Add(Add(reg, p, cb), p, cb) == Add(reg, p, cb)
  {
    var once := Add(reg, p, cb);
    assert once[p] + {cb} == once[p];
  }

  /** Subscribing a fresh callback and unsubscribing it restores the registry,
      provided the registry had no empty sets to begin with. */
  lemma AddThenRemove(reg: Subscribers, p: string, cb: CallbackId)
    requires NoEmpty(reg)
    requires !Registered(reg, p, cb)
    ensures Remove(Add(reg, p, cb), p, cb) == reg
  {
    var r := Remove(Add(reg, p, cb), p, cb);
    if p in reg {
      assert Add(reg, p, cb)[p] - {cb} == reg[p];
    }
    assert forall q :: q in r <==> q in reg;
  }

  /** `subscribe`, `unsubscribe(p, cb)` and `unsubscribe(p)` keep every set non-empty. */
  lemma OperationsKeepNoEmpty(reg: Subscribers, p: string, cb: CallbackId)
    requires NoEmpty(reg)
    ensures NoEmpty(Add(reg, p, cb))
    ensures NoEmpty(Remove(reg, p, cb))
    ensures NoEmpty(Drop(reg, p))
  {
  }

  /** A rejected SUBACK can leave a pattern with an empty set behind, which is why
      resubscription filters on `Live`. */
  lemma PruneLeavesEmptySet(p: string, cb: CallbackId)
    ensures Prune(Add(map[], p, cb), p, cb) == map[p := {}]
    ensures !NoEmpty(Prune(Add(map[], p, cb), p, cb))
    ensures p !in Live(Prune(Add(map[], p, cb), p, cb))
  {
    var empty: set<CallbackId> := {};
    assert empty + {cb} == {cb};
    assert Add(map[], p, cb) == map[p := {cb}];
    assert {cb} - {cb} == {};
  }

  /** Under a non-empty registry, the live patterns are exactly the keys. */
  lemma LiveIsKeys(reg: Subscribers)
    requires NoEmpty(reg)
    ensures Live(reg) == reg.Keys
  {
  }
}
