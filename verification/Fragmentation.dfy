/** Splitting a large payload into fragments, and what a receiver restores from them. */
module Fragmentation {
  import opened Ecs

  type Byte = x: int | 0 <= x < 0x100

  const U32: nat := 0x1_0000_0000
  const MAX_FRAGMENTS: nat := 0xFFFF

  datatype Fragment = Fragment(messageId: nat, index: nat, total: nat, payload: seq<Byte>)

  /** Successive pieces of `limit` bytes, the last one possibly shorter. */
  function Chunks(data: seq<Byte>, limit: nat): seq<seq<Byte>>
    requires limit > 0
    decreases |data|
  {
    if data == [] then []
    else if |data| <= limit then [data]
    else [data[..limit]] + Chunks(data[limit..], limit)
  }

  function Concat(chunks: seq<seq<Byte>>): seq<Byte> {
    if chunks == [] then [] else chunks[0] + Concat(chunks[1..])
  }

  lemma {:induction false} ChunksRestore(data: seq<Byte>, limit: nat)
    requires limit > 0
    ensures Concat(Chunks(data, limit)) == data
    decreases |data|
  {
    var cs := Chunks(data, limit);
    if |data| > limit {
      ChunksRestore(data[limit..], limit);
      assert cs[1..] == Chunks(data[limit..], limit);
    } else if data != [] {
      assert cs[1..] == [] && Concat(cs) == data + Concat([]);
    }
  }

  lemma {:induction false} ChunksFit(data: seq<Byte>, limit: nat)
    requires limit > 0
    ensures forall i | 0 <= i < |Chunks(data, limit)| :: 1 <= |Chunks(data, limit)[i]| <= limit
    decreases |data|
  {
    if |data| > limit { ChunksFit(data[limit..], limit); }
  }

  /** The number of pieces is the length divided by the limit, rounded up. */
  lemma {:induction false} ChunkCountIff(data: seq<Byte>, limit: nat, n: nat)
    requires limit > 0
    ensures |Chunks(data, limit)| <= n <==> |data| <= n * limit
    decreases |data|
  {
    if |data| <= limit {
      if data != [] {
        assert n >= 1 ==> n * limit >= limit;
      }
    } else if n == 0 {
      assert |data| > n * limit;
    } else {
      ChunkCountIff(data[limit..], limit, n - 1);
      assert n * limit == (n - 1) * limit + limit;
    }
  }

  /** The fragments of a payload, or none when they would not fit a 16-bit count. */
  function Fragments(messageId: nat, data: seq<Byte>, limit: nat): seq<Fragment>
    requires limit > 0
  {
    var chunks := Chunks(data, limit);
    if |chunks| > MAX_FRAGMENTS then [] else Numbered(messageId, chunks)
  }

  function Numbered(messageId: nat, chunks: seq<seq<Byte>>): seq<Fragment> {
    seq(|chunks|, i requires 0 <= i < |chunks| => Fragment(messageId, i, |chunks|, chunks[i]))
  }

  /** Distinct indices 0..total-1, non-empty payloads within the limit, for every payload of at
      most 65535 pieces; nothing for a longer one. */
  lemma FragmentsWellFormed(messageId: nat, data: seq<Byte>, limit: nat)
    requires limit > 0
    ensures var fs := Fragments(messageId, data, limit);
            && (|data| > 65535 * limit ==> fs == [])
            && (|data| <= 65535 * limit ==> |fs| == |Chunks(data, limit)|)
            && (forall i | 0 <= i < |fs| :: fs[i].index == i && fs[i].total == |fs| && fs[i].messageId == messageId)
            && (forall i | 0 <= i < |fs| :: 1 <= |fs[i].payload| <= limit)
  {
    ChunkCountIff(data, limit, MAX_FRAGMENTS);
    ChunksFit(data, limit);
  }

  // ---- The receiver --------------------------------------------------------

  /** The first received fragment of a message with a given index. */
  function Find(received: seq<Fragment>, m: nat, i: nat): Option<Fragment> {
    if received == [] then None
    else if received[0].messageId == m && received[0].index == i then Some(received[0])
    else Find(received[1..], m, i)
  }

  /** The payloads of the first `n` indices, in index order. */
  function Gather(received: seq<Fragment>, m: nat, n: nat): Option<seq<Byte>> {
    if n == 0 then Some([])
    else
      match (Gather(received, m, n - 1), Find(received, m, n - 1))
      case (Some(prefix), Some(f)) => Some(prefix + f.payload)
      case _ => None
  }

  function Reassemble(received: seq<Fragment>, m: nat): Option<seq<Byte>> {
    match Find(received, m, 0)
    case None => None
    case Some(f) => Gather(received, m, f.total)
  }

  lemma {:induction false} Found(received: seq<Fragment>, m: nat, i: nat)
    ensures Find(received, m, i).Some? ==>
      && Find(received, m, i).value in received && Find(received, m, i).value.messageId == m
      && Find(received, m, i).value.index == i
    ensures Find(received, m, i).None? ==> forall f | f in received :: f.messageId != m || f.index != i
    decreases |received|
  {
    if received != [] { Found(received[1..], m, i); }
  }

  /** What arrived of message `m` are some of the fragments `fs`. */
  ghost predicate From(received: seq<Fragment>, m: nat, fs: seq<Fragment>) {
    && (forall f | f in received && f.messageId == m :: f in fs)
    && (forall i | 0 <= i < |fs| :: fs[i].messageId == m && fs[i].index == i && fs[i].total == |fs|)
  }

  lemma FindsIts(received: seq<Fragment>, m: nat, fs: seq<Fragment>, i: nat)
    requires From(received, m, fs) && i < |fs|
    ensures Find(received, m, i) == if fs[i] in received then Some(fs[i]) else None
  {
    Found(received, m, i);
    var r := Find(received, m, i);
    if r.Some? {
      var k :| 0 <= k < |fs| && fs[k] == r.value;
      assert k == i;
    }
  }

  function Payloads(fs: seq<Fragment>): seq<seq<Byte>> {
    seq(|fs|, i requires 0 <= i < |fs| => fs[i].payload)
  }

  lemma {:induction false} ConcatSnoc(chunks: seq<seq<Byte>>, last: seq<Byte>)
    ensures Concat(chunks + [last]) == Concat(chunks) + last
    decreases |chunks|
  {
    if chunks == [] {
      assert chunks + [last] == [last] && [last][1..] == [];
      assert Concat([last]) == last + Concat([]);
    } else {
      assert (chunks + [last])[0] == chunks[0] && (chunks + [last])[1..] == chunks[1..] + [last];
      ConcatSnoc(chunks[1..], last);
    }
  }

  /** The gathered prefix is exact when all of it arrived, and nothing otherwise. */
  lemma {:induction false} GatherIs(received: seq<Fragment>, m: nat, fs: seq<Fragment>, n: nat)
    requires From(received, m, fs) && n <= |fs|
    ensures Gather(received, m, n) ==
      if forall i | 0 <= i < n :: fs[i] in received then Some(Concat(Payloads(fs)[..n])) else None
    decreases n
  {
    if n > 0 {
      GatherIs(received, m, fs, n - 1);
      FindsIts(received, m, fs, n - 1);
      var ps := Payloads(fs);
      assert ps[..n] == ps[..n - 1] + [ps[n - 1]];
      ConcatSnoc(ps[..n - 1], ps[n - 1]);
    }
  }

  /** In whatever order, however often and among whatever other messages its fragments arrive, a
      message is restored exactly when all of them did; otherwise nothing is restored. */
  lemma ReassembleIff(received: seq<Fragment>, m: nat, data: seq<Byte>, limit: nat)
    requires limit > 0 && 0 < |data| <= MAX_FRAGMENTS * limit
    requires forall f | f in received && f.messageId == m :: f in Fragments(m, data, limit)
    ensures Reassemble(received, m) ==
      if forall f | f in Fragments(m, data, limit) :: f in received then Some(data) else None
  {
    var fs := Fragments(m, data, limit);
    FragmentsWellFormed(m, data, limit);
    ChunksRestore(data, limit);
    assert Payloads(fs) == Chunks(data, limit) == Payloads(fs)[..|fs|];
    FindsIts(received, m, fs, 0);
    GatherIs(received, m, fs, |fs|);
    assert fs[0] in fs;
  }

  // ---- Many messages -------------------------------------------------------

  /** The message id of the k-th attempt. */
  function IdOf(first: nat, k: nat): nat {
    (first + k) % U32
  }

  /** Any 2^32 consecutive attempts carry distinct ids below 2^32. */
  lemma IdsDistinct(first: nat, j: nat, k: nat)
    requires j < k < j + 4294967296
    ensures IdOf(first, j) != IdOf(first, k) && 0 <= IdOf(first, k) < 4294967296
  {
    var q, p := (first + j) / U32, (first + k) / U32;
    assert k - j == U32 * (p - q) + IdOf(first, k) - IdOf(first, j);
  }

  /** The sender's counter after an attempt, and after `k` of them. */
  function NextId(n: nat): nat {
    (n + 1) % U32
  }

  function IdAfter(first: nat, k: nat): nat {
    if k == 0 then first else NextId(IdAfter(first, k - 1))
  }

  lemma {:induction false} IdAfterIs(first: nat, k: nat)
    requires first < U32
    ensures IdAfter(first, k) == IdOf(first, k)
    decreases k
  {
    if k > 0 {
      IdAfterIs(first, k - 1);
      NextIs(first + k - 1);
    }
  }

  lemma NextIs(n: nat)
    ensures NextId(n % U32) == (n + 1) % U32
  {
    var q := n / U32;
    assert n == U32 * q + n % U32;
    if n % U32 == U32 - 1 {
      assert n + 1 == U32 * (q + 1);
    } else {
      assert n + 1 == U32 * q + (n % U32 + 1);
    }
  }

  /** A received fragment is a fragment of one of the messages sent. */
  ghost predicate SentAll(received: seq<Fragment>, first: nat, datas: seq<seq<Byte>>, limit: nat)
    requires limit > 0
  {
    forall f | f in received :: exists k | 0 <= k < |datas| :: f in Fragments(IdOf(first, k), datas[k], limit)
  }

  /** The same for a whole burst of messages: with up to 2^32 in flight, and their fragments
      mixed in any way, each is restored exactly when all of its own fragments arrived. */
  lemma EachReassembled(received: seq<Fragment>, first: nat, datas: seq<seq<Byte>>, limit: nat, k: nat)
    requires limit > 0 && k < |datas| <= U32 && SentAll(received, first, datas, limit)
    requires 0 < |datas[k]| <= MAX_FRAGMENTS * limit
    ensures var m := IdOf(first, k);
            Reassemble(received, m)
            == if forall f | f in Fragments(m, datas[k], limit) :: f in received then Some(datas[k]) else None
  {
    var m := IdOf(first, k);
    forall f | f in received && f.messageId == m
      ensures f in Fragments(m, datas[k], limit)
    {
      var j :| 0 <= j < |datas| && f in Fragments(IdOf(first, j), datas[j], limit);
      FragmentsWellFormed(IdOf(first, j), datas[j], limit);
      if j < k {
        IdsDistinct(first, j, k);
      } else if k < j {
        IdsDistinct(first, k, j);
      }
    }
    ReassembleIff(received, m, datas[k], limit);
  }

  // ---- The sender ----------------------------------------------------------

  datatype Targets = Broadcast | Recipients(ids: seq<ClientId>) | NoRecipients

  datatype Outbound = ToAll(fragment: Fragment) | To(client: ClientId, fragment: Fragment)

  datatype Sent = Ok(count: nat) | TooManyFragments

  /** The messages that carry one fragment. */
  function Addressed(targets: Targets, f: Fragment): seq<Outbound> {
    match targets
    case Broadcast => [ToAll(f)]
    case Recipients(ids) => seq(|ids|, i requires 0 <= i < |ids| => To(ids[i], f))
    case NoRecipients => []
  }

  /** The messages that carry the fragments that encode; the others are logged and dropped. */
  function Posted(targets: Targets, fs: seq<Fragment>, encodes: Fragment -> bool): seq<Outbound> {
    if fs == [] then []
    else
      var f := fs[|fs| - 1];
      Posted(targets, fs[..|fs| - 1], encodes) + if encodes(f) then Addressed(targets, f) else []
  }

  lemma PostedStep(targets: Targets, fs: seq<Fragment>, encodes: Fragment -> bool, i: nat)
    requires i <= |fs|
    ensures Posted(targets, fs[..0], encodes) == []
    ensures i < |fs| ==>
              Posted(targets, fs[..i + 1], encodes)
              == Posted(targets, fs[..i], encodes) + if encodes(fs[i]) then Addressed(targets, fs[i]) else []
  {
    hide Addressed;
    if i < |fs| { assert fs[..i + 1][..i] == fs[..i]; }
  }

  /** What a client receives. */
  function Inbox(out: seq<Outbound>, client: ClientId): seq<Fragment> {
    if out == [] then []
    else
      var o := out[|out| - 1];
      Inbox(out[..|out| - 1], client) + if o.ToAll? || o.client == client then [o.fragment] else []
  }

  ghost predicate Reaches(out: seq<Outbound>, client: ClientId, f: Fragment) {
    exists i | 0 <= i < |out| :: out[i].fragment == f && (out[i].ToAll? || out[i].client == client)
  }

  lemma {:induction false} InboxHolds(out: seq<Outbound>, client: ClientId, f: Fragment)
    ensures f in Inbox(out, client) <==> Reaches(out, client, f)
    decreases |out|
  {
    if out != [] {
      InboxHolds(out[..|out| - 1], client, f);
    }
  }

  lemma {:induction false} PostedHolds(targets: Targets, fs: seq<Fragment>, encodes: Fragment -> bool, o: Outbound)
    ensures o in Posted(targets, fs, encodes)
            <==> o.fragment in fs && encodes(o.fragment) && o in Addressed(targets, o.fragment)
    decreases |fs|
  {
    if fs != [] {
      var f, fs' := fs[|fs| - 1], fs[..|fs| - 1];
      PostedHolds(targets, fs', encodes, o);
      assert fs == fs' + [f];
      assert o in Addressed(targets, f) ==> o.fragment == f;
    }
  }

  /** A client the payload was addressed to restores it exactly when every fragment encoded. */
  lemma RecipientRestores(
    targets: Targets, client: ClientId, m: nat, data: seq<Byte>, limit: nat, encodes: Fragment -> bool)
    requires limit > 0 && 0 < |data| <= MAX_FRAGMENTS * limit
    requires targets.Broadcast? || (targets.Recipients? && client in targets.ids)
    ensures Reassemble(Inbox(Posted(targets, Fragments(m, data, limit), encodes), client), m)
         == if forall f | f in Fragments(m, data, limit) :: encodes(f) then Some(data) else None
  {
    var fs := Fragments(m, data, limit);
    var out := Posted(targets, fs, encodes);
    var received := Inbox(out, client);
    forall f: Fragment
      ensures f in received <==> f in fs && encodes(f)
    {
      InboxHolds(out, client, f);
      Delivered(targets, client, fs, encodes, f);
    }
    ReassembleIff(received, m, data, limit);
  }

  lemma Delivered(targets: Targets, client: ClientId, fs: seq<Fragment>, encodes: Fragment -> bool, f: Fragment)
    requires targets.Broadcast? || (targets.Recipients? && client in targets.ids)
    ensures Reaches(Posted(targets, fs, encodes), client, f) <==> f in fs && encodes(f)
  {
    var out := Posted(targets, fs, encodes);
    forall i | 0 <= i < |out| && out[i].fragment == f
      ensures f in fs && encodes(f)
    {
      PostedHolds(targets, fs, encodes, out[i]);
    }
    if f in fs && encodes(f) {
      var o := if targets.Broadcast? then ToAll(f) else To(client, f);
      assert o in Addressed(targets, f) by {
        if targets.Recipients? {
          var i :| 0 <= i < |targets.ids| && targets.ids[i] == client;
          assert Addressed(targets, f)[i] == o;
        }
      }
      PostedHolds(targets, fs, encodes, o);
    }
  }

  // ---- Runs of attempts ----------------------------------------------------

  /** A payload, its addressees, and which of its fragments encode. */
  datatype Attempt = Attempt(data: seq<Byte>, targets: Targets, encodes: Fragment -> bool)

  /** What the attempts post, from a counter `first` on. */
  function Outbox(first: nat, attempts: seq<Attempt>, limit: nat): seq<Outbound>
    requires limit > 0
  {
    if attempts == [] then []
    else
      var k := |attempts| - 1;
      Outbox(first, attempts[..k], limit)
      + Posted(attempts[k].targets, Fragments(IdAfter(first, k), attempts[k].data, limit), attempts[k].encodes)
  }

  lemma OutboxStep(first: nat, attempts: seq<Attempt>, limit: nat, k: nat)
    requires limit > 0 && k <= |attempts|
    ensures Outbox(first, [], limit) == [] && attempts[..0] == []
    ensures k < |attempts| ==>
              Outbox(first, attempts[..k + 1], limit) == Outbox(first, attempts[..k], limit)
              + Posted(attempts[k].targets, Fragments(IdAfter(first, k), attempts[k].data, limit), attempts[k].encodes)
  {
    hide Fragments, Posted, IdAfter;
    if k < |attempts| { assert attempts[..k + 1][..k] == attempts[..k]; }
  }

  /** The fragments that the k-th attempt encodes. */
  ghost predicate Encoded(first: nat, attempts: seq<Attempt>, limit: nat, k: nat, f: Fragment)
    requires limit > 0 && k < |attempts|
  {
    f in Fragments(IdAfter(first, k), attempts[k].data, limit) && attempts[k].encodes(f)
  }

  lemma {:induction false} OutboxHolds(first: nat, attempts: seq<Attempt>, limit: nat, o: Outbound)
    requires limit > 0
    ensures o in Outbox(first, attempts, limit)
       <==> exists k | 0 <= k < |attempts| ::
              Encoded(first, attempts, limit, k, o.fragment) && o in Addressed(attempts[k].targets, o.fragment)
    decreases |attempts|
  {
    hide Fragments, Addressed, Posted, IdAfter;
    if attempts != [] {
      var n := |attempts| - 1;
      var rest := attempts[..n];
      OutboxHolds(first, rest, limit, o);
      PostedHolds(attempts[n].targets, Fragments(IdAfter(first, n), attempts[n].data, limit), attempts[n].encodes, o);
      forall k | 0 <= k < n
        ensures Encoded(first, rest, limit, k, o.fragment) == Encoded(first, attempts, limit, k, o.fragment)
      {
        assert rest[k] == attempts[k];
      }
    }
  }

  predicate IsFor(targets: Targets, client: ClientId) {
    targets.Broadcast? || (targets.Recipients? && client in targets.ids)
  }

  /** What a client receives under the id of the k-th attempt, addressed to it, is what that attempt
      encoded and nothing else. */
  lemma ReceivedIff(first: nat, attempts: seq<Attempt>, limit: nat, client: ClientId, k: nat, f: Fragment)
    requires limit > 0 && first < U32 && k < |attempts| <= U32 && IsFor(attempts[k].targets, client)
    ensures f in Inbox(Outbox(first, attempts, limit), client) && f.messageId == IdAfter(first, k)
       <==> Encoded(first, attempts, limit, k, f)
  {
    hide Fragments, Addressed, Outbox, Inbox, IdAfter;
    var out := Outbox(first, attempts, limit);
    InboxHolds(out, client, f);
    FragmentsNamed(IdAfter(first, k), attempts[k].data, limit, f);
    if f in Inbox(out, client) && f.messageId == IdAfter(first, k) {
      var i :| 0 <= i < |out| && out[i].fragment == f && (out[i].ToAll? || out[i].client == client);
      OutboxHolds(first, attempts, limit, out[i]);
      var j :| && 0 <= j < |attempts| && Encoded(first, attempts, limit, j, f)
               && out[i] in Addressed(attempts[j].targets, f);
      FragmentsNamed(IdAfter(first, j), attempts[j].data, limit, f);
      SameAttempt(first, j, k);
    }
    if Encoded(first, attempts, limit, k, f) {
      var o := if attempts[k].targets.Broadcast? then ToAll(f) else To(client, f);
      AddressedTo(attempts[k].targets, client, f);
      OutboxHolds(first, attempts, limit, o);
      var i :| 0 <= i < |out| && out[i] == o;
    }
  }

  lemma AddressedTo(targets: Targets, client: ClientId, f: Fragment)
    requires IsFor(targets, client)
    ensures (if targets.Broadcast? then ToAll(f) else To(client, f)) in Addressed(targets, f)
  {
    if targets.Recipients? {
      var i :| 0 <= i < |targets.ids| && targets.ids[i] == client;
      assert Addressed(targets, f)[i] == To(client, f);
    }
  }

  lemma FragmentsNamed(m: nat, data: seq<Byte>, limit: nat, f: Fragment)
    requires limit > 0
    ensures f in Fragments(m, data, limit) ==> f.messageId == m
  {
    if f in Fragments(m, data, limit) { FragmentsWellFormed(m, data, limit); }
  }

  lemma SameAttempt(first: nat, j: nat, k: nat)
    requires first < U32 && j < U32 && k < U32 && IdAfter(first, j) == IdAfter(first, k)
    ensures j == k
  {
    hide IdAfter, IdOf;
    IdAfterIs(first, j);
    IdAfterIs(first, k);
    if j < k { IdsDistinct(first, j, k); }
    if k < j { IdsDistinct(first, k, j); }
  }

  /** Of up to 2^32 attempts in a row, to whomever, each client restores each payload addressed to it
      exactly when every fragment of it encoded. */
  lemma RunRestores(first: nat, attempts: seq<Attempt>, limit: nat, client: ClientId, k: nat)
    requires limit > 0 && first < U32 && k < |attempts| <= U32 && IsFor(attempts[k].targets, client)
    requires 0 < |attempts[k].data| <= MAX_FRAGMENTS * limit
    ensures var m := IdAfter(first, k);
            Reassemble(Inbox(Outbox(first, attempts, limit), client), m)
            == if forall f | f in Fragments(m, attempts[k].data, limit) :: attempts[k].encodes(f)
               then Some(attempts[k].data) else None
  {
    hide Fragments, Outbox, Inbox, IdAfter, Reassemble;
    var m, received := IdAfter(first, k), Inbox(Outbox(first, attempts, limit), client);
    forall f: Fragment
      ensures f in received && f.messageId == m
         <==> f in Fragments(m, attempts[k].data, limit) && attempts[k].encodes(f)
    {
      ReceivedIff(first, attempts, limit, client, k, f);
    }
    forall f: Fragment ensures f in Fragments(m, attempts[k].data, limit) ==> f.messageId == m {
      FragmentsNamed(m, attempts[k].data, limit, f);
    }
    ReassembleIff(received, m, attempts[k].data, limit);
  }

  class FragmentSender {
    var nextMessageId: nat
    var outbound: seq<Outbound>
    const hasChannel: bool

    constructor (channel: bool)
      ensures nextMessageId == 1 && outbound == [] && hasChannel == channel
    {
      nextMessageId, outbound, hasChannel := 1, [], channel;
    }

    /** Every attempt takes an id, also one that is refused for its length. */
    method FragmentAndSend(data: seq<Byte>, targets: Targets, limit: nat, encodes: Fragment -> bool) returns (r: Sent)
      requires limit > 0 && nextMessageId < U32
      modifies this
      ensures nextMessageId == if hasChannel then NextId(old(nextMessageId)) else old(nextMessageId)
      ensures outbound == old(outbound)
           + if hasChannel then Posted(targets, Fragments(old(nextMessageId), data, limit), encodes) else []
      ensures r.TooManyFragments? <==> hasChannel && |data| > MAX_FRAGMENTS * limit
      ensures if r.Ok? then r.count == |outbound| - |old(outbound)| else outbound == old(outbound)
    {
      ChunkCountIff(data, limit, MAX_FRAGMENTS);
      if !hasChannel {
        return Ok(0);
      }
      var messageId := nextMessageId;
      nextMessageId := (nextMessageId + 1) % U32;
      var chunks := SplitChunks(data, limit);
      if |chunks| > MAX_FRAGMENTS {
        return TooManyFragments;
      }
      var sent := SendFragments(messageId, chunks, targets, encodes);
      r := Ok(sent);
    }

    /** The large batches of a tick, in turn; a refused one is logged. */
    method SendLarge(batches: seq<Attempt>, limit: nat) returns (sent: nat)
      requires limit > 0 && nextMessageId < U32
      modifies this
      ensures hasChannel ==> nextMessageId == IdAfter(old(nextMessageId), |batches|)
      ensures outbound == old(outbound) + if hasChannel then Outbox(old(nextMessageId), batches, limit) else []
      ensures sent == |outbound| - |old(outbound)|
    {
      hide Fragments, Posted, Outbox;
      sent := 0;
      var i := 0;
      OutboxStep(nextMessageId, batches, limit, 0);
      while i < |batches|
        invariant 0 <= i <= |batches| && nextMessageId < U32
        invariant hasChannel ==> nextMessageId == IdAfter(old(nextMessageId), i)
        invariant outbound == old(outbound) + if hasChannel then Outbox(old(nextMessageId), batches[..i], limit) else []
        invariant sent == |outbound| - |old(outbound)|
      {
        OutboxStep(old(nextMessageId), batches, limit, i);
        var r := FragmentAndSend(batches[i].data, batches[i].targets, limit, batches[i].encodes);
        if r.Ok? {
          sent := sent + r.count;
        }
        i := i + 1;
      }
      assert batches[..i] == batches;
    }

    method SendFragments(messageId: nat, chunks: seq<seq<Byte>>, targets: Targets, encodes: Fragment -> bool)
      returns (sent: nat)
      modifies `outbound
      ensures outbound == old(outbound) + Posted(targets, Numbered(messageId, chunks), encodes)
      ensures sent == |outbound| - |old(outbound)|
    {
      hide Posted, Addressed;
      ghost var fs := Numbered(messageId, chunks);
      var i := 0;
      sent := 0;
      PostedStep(targets, fs, encodes, 0);
      while i < |chunks|
        invariant 0 <= i <= |chunks|
        invariant outbound == old(outbound) + Posted(targets, fs[..i], encodes)
        invariant sent == |outbound| - |old(outbound)|
      {
        var f := Fragment(messageId, i, |chunks|, chunks[i]);
        PostedStep(targets, fs, encodes, i);
        assert fs[i] == f;
        if encodes(f) {
          var n := Post(targets, f);
          sent := sent + n;
        }
        i := i + 1;
      }
      assert fs[..i] == fs;
    }

    method Post(targets: Targets, f: Fragment) returns (n: nat)
      modifies `outbound
      ensures outbound == old(outbound) + Addressed(targets, f)
      ensures n == |Addressed(targets, f)|
    {
      match targets
      case Broadcast =>
        outbound := outbound + [ToAll(f)];
        n := 1;
      case NoRecipients =>
        n := 0;
      case Recipients(ids) =>
        n := 0;
        while n < |ids|
          invariant 0 <= n <= |ids|
          invariant outbound == old(outbound) + Addressed(targets, f)[..n]
        {
          outbound := outbound + [To(ids[n], f)];
          n := n + 1;
        }
    }
  }

  method SplitChunks(data: seq<Byte>, limit: nat) returns (chunks: seq<seq<Byte>>)
    requires limit > 0
    ensures chunks == Chunks(data, limit)
  {
    chunks := [];
    var rest := data;
    while rest != []
      invariant chunks + Chunks(rest, limit) == Chunks(data, limit)
      decreases |rest|
    {
      var n := if |rest| < limit then |rest| else limit;
      assert rest[..n] + rest[n..] == rest;
      assert |rest| <= limit ==> rest[..n] == rest && rest[n..] == [];
      chunks := chunks + [rest[..n]];
      rest := rest[n..];
    }
  }
}
