/** Properties of the application as written: what each call changes, the
    order in which transitions are accepted, and how the creation path and
    the transition path disagree on keys and offsets. */
module Lifecycle {
  import opened Bytes
  import opened Wrappers
  import opened Codec
  import opened Boxes
  import opened Contract

  // ---------------------------------------------------------------- keys

  /** Creation keys are 48 bytes and determine sender, asset and nonce. */
  lemma CreationKeyInjective(s1: Address, a1: u64, n1: u64, s2: Address, a2: u64, n2: u64)
    requires CreationKey(s1, a1, n1) == CreationKey(s2, a2, n2)
    ensures |CreationKey(s1, a1, n1)| == 48
    ensures s1 == s2 && a1 == a2 && n1 == n2
  {
    var k := CreationKey(s1, a1, n1);
    assert k[..32] == s1 && k[32..40] == Itob(a1) && k[40..48] == Itob(n1);
    var k2 := CreationKey(s2, a2, n2);
    assert k2[..32] == s2 && k2[32..40] == Itob(a2) && k2[40..48] == Itob(n2);
    ItobInjective(a1, a2);
    ItobInjective(n1, n2);
  }

  /** No read or transition key is ever a creation key: 8 bytes against 48. */
  lemma KeysDisjoint(sender: Address, asset: u64, nonce: u64, upc: u64)
    ensures |ItemKey(upc)| == 8 && |CreationKey(sender, asset, nonce)| == 48
    ensures ItemKey(upc) != CreationKey(sender, asset, nonce)
  {
  }

  // ---------------------------------------------------------- add_item

  /** `add_item` accepts exactly when both grouped transactions come from the
      caller and go to the application, the amount is positive, the key is
      free and the record fits in a box; it then adds one box holding
      `serialize(item)` and changes nothing else. */
  lemma AddItemAccepts(s: Store, item: Item, nonce: u64, xfer: AssetTransferTxn,
                       mbrPay: PaymentTxn, sender: Address, app: Address)
    ensures var key := CreationKey(sender, xfer.xferAsset, nonce);
      AddItemEffect(s, item, nonce, xfer, mbrPay, sender, app).Ok? <==>
        && mbrPay.sender == sender && mbrPay.receiver == app
        && key !in s
        && xfer.sender == sender && xfer.assetReceiver == app && xfer.assetAmount > 0
        && |Serialize(item)| <= MaxBoxSize
    ensures var key := CreationKey(sender, xfer.xferAsset, nonce);
      var e := AddItemEffect(s, item, nonce, xfer, mbrPay, sender, app);
      e.Ok? ==> && e.value.Keys == s.Keys + {key}
                && e.value[key] == Serialize(item)
                && forall k :: k in s ==> e.value[k] == s[k]
  {
  }

  /** A box that already exists is never replaced: re-creation fails with
      `BoxAlreadyExists` once the payment checks pass. */
  lemma AddItemNeverOverwrites(s: Store, item: Item, nonce: u64, xfer: AssetTransferTxn,
                               mbrPay: PaymentTxn, sender: Address, app: Address)
    requires mbrPay.sender == sender && mbrPay.receiver == app
    requires CreationKey(sender, xfer.xferAsset, nonce) in s
    ensures AddItemEffect(s, item, nonce, xfer, mbrPay, sender, app) == Err(BoxAlreadyExists)
  {
  }

  /** A representable item always fits: its record is 160 bytes, far below
      the largest box, so `add_item` fails only on its explicit checks. */
  lemma RepresentableItemFits(item: Item)
    requires Representable(item)
    ensures |Serialize(item)| == RecordSize <= MaxBoxSize
  {
    SerializeLength(item);
  }

  // ------------------------------------------------------- transitions

  /** The bytes a transition writes: the stage, the price for sell, the
      owner for buy, receive and purchase. */
  predicate Writes(op: Op, i: int)
  {
    || StageOffset <= i < StageOffset + 8
    || (op.Sell? && PriceOffset <= i < PriceOffset + 8)
    || ((op.Buy? || op.Receive? || op.Purchase?) && OwnerOffset <= i < OwnerOffset + 32)
  }

  /** An accepted transition keeps the box length and every byte it does
      not write. */
  lemma AdvanceUnchanged(b: seq<byte>, op: Op)
    requires |b| >= ReadEnd(op)
    ensures |Advance(b, op)| == |b|
    ensures forall i :: 0 <= i < |b| && !Writes(op, i) ==> Advance(b, op)[i] == b[i]
  {
    var staged := Overwrite(b, StageOffset, Itob(NextStage(op)));
    match op
    case Sell(p) =>
      var a := Overwrite(staged, PriceOffset, Itob(p));
      forall i | 0 <= i < |b| && !Writes(op, i) ensures a[i] == b[i] {
        assert a[i] == staged[i];
      }
    case Buy(c) =>
      var a := Overwrite(staged, OwnerOffset, c);
      forall i | 0 <= i < |b| && !Writes(op, i) ensures a[i] == b[i] {
        assert a[i] == staged[i];
      }
    case Receive(c) =>
      var a := Overwrite(staged, OwnerOffset, c);
      forall i | 0 <= i < |b| && !Writes(op, i) ensures a[i] == b[i] {
        assert a[i] == staged[i];
      }
    case Purchase(c) =>
      var a := Overwrite(staged, OwnerOffset, c);
      forall i | 0 <= i < |b| && !Writes(op, i) ensures a[i] == b[i] {
        assert a[i] == staged[i];
      }
    case _ =>
  }

  /** Each transition writes the stage right after the one it requires. */
  lemma NextStageFollows(op: Op)
    ensures NextStage(op) == RequiredStage(op) + 1
  {
  }

  /** An accepted transition writes the next stage at 16..24. */
  lemma AdvanceStage(b: seq<byte>, op: Op)
    requires |b| >= ReadEnd(op)
    ensures |Advance(b, op)| == |b|
    ensures Advance(b, op)[16..24] == Itob(NextStage(op))
    ensures StageOf(Advance(b, op)) == RequiredStage(op) + 1
  {
    NextStageFollows(op);
    var staged := Overwrite(b, StageOffset, Itob(NextStage(op)));
    var a := Advance(b, op);
    if !op.Process? && !op.Pack? && !op.Ship? {
      assert a[16..24] == staged[16..24] by {
        forall i | 16 <= i < 24 ensures a[i] == staged[i] { }
      }
    }
  }

  /** Sell also writes the price at 24..32; buy, receive and purchase write
      the caller's address at 32..64. */
  lemma AdvanceFields(b: seq<byte>, op: Op)
    requires |b| >= ReadEnd(op)
    ensures op.Sell? ==> Advance(b, op)[24..32] == Itob(op.price)
    ensures op.Buy? ==> Advance(b, op)[32..64] == op.distributor
    ensures op.Receive? ==> Advance(b, op)[32..64] == op.retailer
    ensures op.Purchase? ==> Advance(b, op)[32..64] == op.consumer
  {
  }

  /** The range [lo, hi) misses every byte the transition writes. */
  predicate Untouched(op: Op, lo: int, hi: int)
  {
    && (hi <= StageOffset || lo >= StageOffset + 8)
    && (!op.Sell? || hi <= PriceOffset || lo >= PriceOffset + 8)
    && (!(op.Buy? || op.Receive? || op.Purchase?) || hi <= OwnerOffset || lo >= OwnerOffset + 32)
  }

  /** A byte range a transition does not write keeps its contents. */
  lemma AdvanceKeepsRange(b: seq<byte>, op: Op, lo: nat, hi: nat)
    requires |b| >= ReadEnd(op) && lo <= hi <= |b|
    requires Untouched(op, lo, hi)
    ensures Advance(b, op)[lo..hi] == b[lo..hi]
  {
    var stage := Itob(NextStage(op));
    OverwriteKeepsRange(b, StageOffset, stage, lo, hi);
    var staged := Overwrite(b, StageOffset, stage);
    match op
    case Sell(p) => OverwriteKeepsRange(staged, PriceOffset, Itob(p), lo, hi);
    case Buy(c) => OverwriteKeepsRange(staged, OwnerOffset, c, lo, hi);
    case Receive(c) => OverwriteKeepsRange(staged, OwnerOffset, c, lo, hi);
    case Purchase(c) => OverwriteKeepsRange(staged, OwnerOffset, c, lo, hi);
    case _ =>
  }

  /** An accepted transition writes the next stage at 16..24, the price at
      24..32 for sell and the caller at 32..64 for buy, receive and
      purchase; every other byte, every box length and every other box is
      left as it was. */
  lemma TransitionFrame(s: Store, op: Op, upc: u64)
    requires Transition(s, op, upc).Ok?
    ensures ItemKey(upc) in s && |s[ItemKey(upc)]| >= ReadEnd(op)
    ensures Transition(s, op, upc).value == s[ItemKey(upc) := Advance(s[ItemKey(upc)], op)]
    ensures var t := Transition(s, op, upc).value;
      t.Keys == s.Keys && forall k :: k in s && k != ItemKey(upc) ==> t[k] == s[k]
    ensures var b := s[ItemKey(upc)];
      var a := Advance(b, op);
      && |a| == |b|
      && a[16..24] == Itob(NextStage(op))
      && (op.Sell? ==> a[24..32] == Itob(op.price))
      && (op.Buy? ==> a[32..64] == op.distributor)
      && (op.Receive? ==> a[32..64] == op.retailer)
      && (op.Purchase? ==> a[32..64] == op.consumer)
      && (forall i :: 0 <= i < |b| && !Writes(op, i) ==> a[i] == b[i])
  {
    var b := s[ItemKey(upc)];
    AdvanceUnchanged(b, op);
    AdvanceStage(b, op);
    AdvanceFields(b, op);
  }

  /** An accepted transition advances the stage by exactly one. */
  lemma StageAdvancesByOne(s: Store, op: Op, upc: u64)
    requires Transition(s, op, upc).Ok?
    ensures var key := ItemKey(upc);
      && StageOf(s[key]) == RequiredStage(op)
      && StageOf(Transition(s, op, upc).value[key]) == StageOf(s[key]) + 1
  {
    TransitionFrame(s, op, upc);
  }

  /** A transition is accepted exactly when the box exists, is long enough
      for its reads and writes, and its stage bytes hold the one stage the
      transition requires; a box that is present and long enough otherwise
      reports the expected and the actual stage. */
  lemma TransitionAccepts(s: Store, op: Op, upc: u64)
    ensures var key := ItemKey(upc);
      Transition(s, op, upc).Ok? <==>
        key in s && |s[key]| >= ReadEnd(op) && StageOf(s[key]) == RequiredStage(op)
    ensures var key := ItemKey(upc);
      key in s && |s[key]| >= ReadEnd(op) && StageOf(s[key]) != RequiredStage(op) ==>
        Transition(s, op, upc) == Err(WrongStage(RequiredStage(op), StageOf(s[key])))
    ensures forall i :: Writes(op, i) ==> 0 <= i < ReadEnd(op)
  {
  }

  /** Purchased is terminal: no transition accepts a box whose stage bytes
      read 7. */
  lemma PurchasedIsTerminal(s: Store, op: Op, upc: u64)
    requires ItemKey(upc) in s && |s[ItemKey(upc)]| >= 24
    requires StageOf(s[ItemKey(upc)]) == Purchased
    ensures Transition(s, op, upc).Err?
    ensures |s[ItemKey(upc)]| >= BoxValueSize ==>
      Transition(s, op, upc) == Err(WrongStage(RequiredStage(op), Purchased))
  {
  }

  /** After an accepted transition, the only transition the same box accepts
      next is the one that requires the following stage: no skip, no
      repeat, no regression. */
  lemma OnlyNextAccepted(s: Store, first: Op, next: Op, upc: u64)
    requires Transition(s, first, upc).Ok?
    requires Transition(Transition(s, first, upc).value, next, upc).Ok?
    ensures RequiredStage(next) == RequiredStage(first) + 1
  {
    StageAdvancesByOne(s, first, upc);
    StageAdvancesByOne(Transition(s, first, upc).value, next, upc);
  }

  /** Applies transitions in order to one key, stopping at the first error. */
  function RunOps(s: Store, ops: seq<Op>, upc: u64): Result<Store, Error>
  {
    if ops == [] then Ok(s)
    else match Transition(s, ops[0], upc)
      case Err(e) => Err(e)
      case Ok(t) => RunOps(t, ops[1..], upc)
  }

  /** The seven transitions in their prescribed order. */
  function LifecycleOps(price: u64, distributor: Address, retailer: Address, consumer: Address): seq<Op>
  {
    [Process, Pack, Sell(price), Buy(distributor), Ship, Receive(retailer), Purchase(consumer)]
  }

  /** One step of a run that is accepted. */
  lemma RunStep(s: Store, ops: seq<Op>, upc: u64)
    requires ops != [] && Transition(s, ops[0], upc).Ok?
    ensures RunOps(s, ops, upc) == RunOps(Transition(s, ops[0], upc).value, ops[1..], upc)
  {
  }

  /** The box contents after a run of accepted transitions. */
  function AdvanceAll(b: seq<byte>, ops: seq<Op>): (r: seq<byte>)
    requires |b| >= BoxValueSize
    ensures |r| == |b|
    decreases |ops|
  {
    if ops == [] then b else AdvanceAll(Advance(b, ops[0]), ops[1..])
  }

  /** Each transition in `ops` requires the stage the one before produces. */
  predicate Consecutive(ops: seq<Op>)
  {
    forall j :: 0 <= j < |ops| - 1 ==> RequiredStage(ops[j + 1]) == RequiredStage(ops[j]) + 1
  }

  /** A box at the stage a transition requires is advanced in place. */
  lemma TransitionOnBox(s: Store, upc: u64, b: seq<byte>, op: Op)
    requires |b| >= BoxValueSize && StageOf(b) == RequiredStage(op)
    ensures Transition(s[ItemKey(upc) := b], op, upc) == Ok(s[ItemKey(upc) := Advance(b, op)])
  {
    var key := ItemKey(upc);
    assert s[key := b][key := Advance(b, op)] == s[key := Advance(b, op)];
  }

  /** Dropping the first transition keeps a run consecutive. */
  lemma ConsecutiveTail(ops: seq<Op>)
    requires ops != [] && Consecutive(ops)
    ensures Consecutive(ops[1..])
    ensures |ops| > 1 ==> RequiredStage(ops[1]) == RequiredStage(ops[0]) + 1
  {
    forall j | 0 <= j < |ops[1..]| - 1
      ensures RequiredStage(ops[1..][j + 1]) == RequiredStage(ops[1..][j]) + 1
    {
      assert ops[1..][j] == ops[j + 1] && ops[1..][j + 1] == ops[j + 2];
    }
  }

  /** A run of consecutive transitions that starts at the stage its first
      one requires is accepted in full, and moves the stage on by the
      number of steps. */
  lemma {:induction false} RunChain(s: Store, upc: u64, b: seq<byte>, ops: seq<Op>)
    requires |b| >= BoxValueSize
    requires ops != [] ==> StageOf(b) == RequiredStage(ops[0])
    requires Consecutive(ops)
    ensures RunOps(s[ItemKey(upc) := b], ops, upc) == Ok(s[ItemKey(upc) := AdvanceAll(b, ops)])
    ensures StageOf(AdvanceAll(b, ops)) == StageOf(b) + |ops|
    decreases |ops|
  {
    if ops != [] {
      var b1 := Advance(b, ops[0]);
      AdvanceStage(b, ops[0]);
      TransitionOnBox(s, upc, b, ops[0]);
      ConsecutiveTail(ops);
      RunChain(s, upc, b1, ops[1..]);
    }
  }

  /** No transition of the run writes into [lo, hi). */
  predicate NoneTouch(ops: seq<Op>, lo: int, hi: int)
    decreases |ops|
  {
    ops == [] || (Untouched(ops[0], lo, hi) && NoneTouch(ops[1..], lo, hi))
  }

  /** A range that no transition of the run writes keeps its contents. */
  lemma {:induction false} AdvanceAllKeepsRange(b: seq<byte>, ops: seq<Op>, lo: nat, hi: nat)
    requires |b| >= BoxValueSize && lo <= hi <= |b|
    requires NoneTouch(ops, lo, hi)
    ensures AdvanceAll(b, ops)[lo..hi] == b[lo..hi]
    decreases |ops|
  {
    if ops != [] {
      AdvanceKeepsRange(b, ops[0], lo, hi);
      AdvanceAllKeepsRange(Advance(b, ops[0]), ops[1..], lo, hi);
    }
  }

  /** Running `xs` then `ys` is running `xs + ys`. */
  lemma {:induction false} AdvanceAllAppend(b: seq<byte>, xs: seq<Op>, ys: seq<Op>)
    requires |b| >= BoxValueSize
    ensures AdvanceAll(b, xs + ys) == AdvanceAll(AdvanceAll(b, xs), ys)
    decreases |xs|
  {
    if xs != [] {
      assert (xs + ys)[0] == xs[0] && (xs + ys)[1..] == xs[1..] + ys;
      AdvanceAllAppend(Advance(b, xs[0]), xs[1..], ys);
    } else {
      assert xs + ys == ys;
    }
  }

  /** A box holding stage 0 and at least 64 bytes goes through any run of
      the seven steps in order: every step is accepted, the stage ends at 7,
      the price is the one sold at, the owner is the consumer, and no other
      box, length or byte past the first 64 changes. */
  lemma LifecycleRun(s: Store, upc: u64, ops: seq<Op>, price: u64, consumer: Address)
    requires ItemKey(upc) in s && |s[ItemKey(upc)]| >= BoxValueSize
    requires StageOf(s[ItemKey(upc)]) == Harvested
    requires LifecycleShape(ops, price, consumer)
    ensures var r := RunOps(s, ops, upc);
      var key := ItemKey(upc);
      && r.Ok?
      && r.value.Keys == s.Keys
      && (forall k :: k in s && k != key ==> r.value[k] == s[k])
      && |r.value[key]| == |s[key]|
      && StageOf(r.value[key]) == Purchased
      && r.value[key][24..32] == Itob(price)
      && r.value[key][32..64] == consumer
      && r.value[key][64..] == s[key][64..]
  {
    var key := ItemKey(upc);
    assert s[key := s[key]] == s;
    LifecycleStages(ops, price, consumer);
    RunChain(s, upc, s[key], ops);
    LifecyclePrice(s[key], ops, price, consumer);
    LifecycleOwner(s[key], ops, price, consumer);
    AdvanceAllKeepsTail(s[key], ops);
  }

  /** The full chain process, pack, sell, buy, ship, receive, purchase. */
  lemma FullLifecycle(s: Store, upc: u64, price: u64,
                      distributor: Address, retailer: Address, consumer: Address)
    requires ItemKey(upc) in s && |s[ItemKey(upc)]| >= BoxValueSize
    requires StageOf(s[ItemKey(upc)]) == Harvested
    ensures var r := RunOps(s, LifecycleOps(price, distributor, retailer, consumer), upc);
      var key := ItemKey(upc);
      && r.Ok?
      && r.value.Keys == s.Keys
      && (forall k :: k in s && k != key ==> r.value[k] == s[k])
      && |r.value[key]| == |s[key]|
      && StageOf(r.value[key]) == Purchased
      && r.value[key][24..32] == Itob(price)
      && r.value[key][32..64] == consumer
      && r.value[key][64..] == s[key][64..]
  {
    LifecycleRun(s, upc, LifecycleOps(price, distributor, retailer, consumer), price, consumer);
  }

  /** A run of one transition is that transition. */
  lemma AdvanceAllSingle(b: seq<byte>, op: Op)
    requires |b| >= BoxValueSize
    ensures AdvanceAll(b, [op]) == Advance(b, op)
  {
    assert [op][1..] == [];
  }

  /** The price a sell writes survives any later steps that leave
      24..32 alone. */
  lemma {:induction false} PriceSurvives(b: seq<byte>, xs: seq<Op>, price: u64, ys: seq<Op>)
    requires |b| >= BoxValueSize
    requires NoneTouch(ys, PriceOffset, PriceOffset + 8)
    ensures AdvanceAll(b, xs + [Sell(price)] + ys)[24..32] == Itob(price)
  {
    var before := AdvanceAll(b, xs);
    AdvanceAllAppend(b, xs + [Sell(price)], ys);
    AdvanceAllAppend(b, xs, [Sell(price)]);
    AdvanceAllSingle(before, Sell(price));
    AdvanceFields(before, Sell(price));
    AdvanceAllKeepsRange(Advance(before, Sell(price)), ys, PriceOffset, PriceOffset + 8);
  }

  /** The owner bytes are the caller of a final purchase. */
  lemma OwnerIsLastCaller(b: seq<byte>, xs: seq<Op>, consumer: Address)
    requires |b| >= BoxValueSize
    ensures AdvanceAll(b, xs + [Purchase(consumer)])[32..64] == consumer
  {
    AdvanceAllAppend(b, xs, [Purchase(consumer)]);
    AdvanceAllSingle(AdvanceAll(b, xs), Purchase(consumer));
    AdvanceFields(AdvanceAll(b, xs), Purchase(consumer));
  }

  /** In a run whose step `k` is a sell and whose later steps leave 24..32
      alone, the final price bytes are that sell's price. */
  lemma PriceOfSellAt(b: seq<byte>, ops: seq<Op>, k: nat)
    requires |b| >= BoxValueSize && k < |ops| && ops[k].Sell?
    requires NoneTouch(ops[k + 1..], PriceOffset, PriceOffset + 8)
    ensures AdvanceAll(b, ops)[24..32] == Itob(ops[k].price)
  {
    assert ops == ops[..k] + [Sell(ops[k].price)] + ops[k + 1..];
    PriceSurvives(b, ops[..k], ops[k].price, ops[k + 1..]);
  }

  /** In a run that ends with a purchase, the final owner is its consumer. */
  lemma OwnerOfLastPurchase(b: seq<byte>, ops: seq<Op>)
    requires |b| >= BoxValueSize && ops != [] && ops[|ops| - 1].Purchase?
    ensures AdvanceAll(b, ops)[32..64] == ops[|ops| - 1].consumer
  {
    var last := ops[|ops| - 1];
    assert ops == ops[..|ops| - 1] + [Purchase(last.consumer)];
    OwnerIsLastCaller(b, ops[..|ops| - 1], last.consumer);
  }

  /** The four steps after sell leave the price alone. */
  lemma AfterSellKeepsPrice(ops: seq<Op>)
    requires |ops| == 4 && ops[0].Buy? && ops[1].Ship? && ops[2].Receive? && ops[3].Purchase?
    ensures NoneTouch(ops, PriceOffset, PriceOffset + 8)
  {
    assert NoneTouch(ops[4..], PriceOffset, PriceOffset + 8);
    assert NoneTouch(ops[3..], PriceOffset, PriceOffset + 8);
    assert NoneTouch(ops[2..], PriceOffset, PriceOffset + 8);
    assert NoneTouch(ops[1..], PriceOffset, PriceOffset + 8);
  }

  /** No transition writes past byte 64. */
  lemma {:induction false} NothingPastValue(ops: seq<Op>, n: int)
    requires n >= BoxValueSize
    ensures NoneTouch(ops, BoxValueSize, n)
    decreases |ops|
  {
    if ops != [] {
      NothingPastValue(ops[1..], n);
    }
  }

  /** The seven steps in their prescribed order, described by shape. */
  predicate LifecycleShape(ops: seq<Op>, price: u64, consumer: Address)
  {
    && |ops| == 7
    && ops[0].Process? && ops[1].Pack? && ops[2] == Sell(price) && ops[3].Buy?
    && ops[4].Ship? && ops[5].Receive? && ops[6] == Purchase(consumer)
  }

  /** The seven steps require the stages 0 to 6 in turn, so each one
      requires the stage the one before produces. */
  lemma LifecycleStages(ops: seq<Op>, price: u64, consumer: Address)
    requires LifecycleShape(ops, price, consumer)
    ensures forall j :: 0 <= j < |ops| ==> RequiredStage(ops[j]) == j
    ensures RequiredStage(ops[0]) == Harvested && Consecutive(ops)
  {
    forall j | 0 <= j < |ops| ensures RequiredStage(ops[j]) == j {
      assert j in {0, 1, 2, 3, 4, 5, 6};
    }
  }

  /** After the seven steps the price bytes hold the price sold at. */
  lemma LifecyclePrice(b: seq<byte>, ops: seq<Op>, price: u64, consumer: Address)
    requires |b| >= BoxValueSize && LifecycleShape(ops, price, consumer)
    ensures AdvanceAll(b, ops)[24..32] == Itob(price)
  {
    AfterSellKeepsPrice(ops[3..]);
    PriceOfSellAt(b, ops, 2);
  }

  /** After the seven steps the owner bytes hold the consumer. */
  lemma LifecycleOwner(b: seq<byte>, ops: seq<Op>, price: u64, consumer: Address)
    requires |b| >= BoxValueSize && LifecycleShape(ops, price, consumer)
    ensures AdvanceAll(b, ops)[32..64] == consumer
  {
    OwnerOfLastPurchase(b, ops);
  }

  /** Any run of transitions leaves every byte past 64 as it was. */
  lemma AdvanceAllKeepsTail(b: seq<byte>, ops: seq<Op>)
    requires |b| >= BoxValueSize
    ensures AdvanceAll(b, ops)[BoxValueSize..] == b[BoxValueSize..]
  {
    NothingPastValue(ops, |b|);
    AdvanceAllKeepsRange(b, ops, BoxValueSize, |b|);
    SameSuffix(AdvanceAll(b, ops), b, BoxValueSize);
  }

  /** Two sequences of one length that agree from `lo` to the end have the
      same suffix from `lo`. */
  lemma SameSuffix(r: seq<byte>, b: seq<byte>, lo: nat)
    requires lo <= |b| && |r| == |b| && r[lo..|b|] == b[lo..|b|]
    ensures r[lo..] == b[lo..]
  {
  }

  // ------------------------------------------------- the two layouts

  /** Where the transitions look for the stage in a record written by
      `add_item`: bytes 16..24 lie inside `farm_address`, not in the codec's
      `state` field at 144..152. */
  lemma StageBytesInFarmAddress(item: Item)
    requires Representable(item)
    ensures StageOf(Serialize(item)) == Btoi(item.farmAddress[16..24])
    ensures Btoi(Serialize(item)[StateOffset..StateOffset + 8]) == item.state
  {
    SerializeLayout(item);
    assert Serialize(item)[16..24] == Serialize(item)[0..32][16..24];
  }

  /** `get_item` on such a record answers the first 8 bytes of
      `farm_address`. */
  lemma GetItemOnRecord(s: Store, upc: u64, item: Item)
    requires Representable(item)
    requires ItemKey(upc) in s && s[ItemKey(upc)] == Serialize(item)
    ensures GetItemResult(s, upc) == Ok(Btoi(item.farmAddress[..8]))
  {
    SerializeLayout(item);
    assert Serialize(item)[..8] == Serialize(item)[0..32][..8];
  }

  /** No transition touches the codec's `state` field: decoding an advanced
      160-byte record gives back the same `state`, coordinates and
      product note. */
  lemma TransitionKeepsCodecState(b: seq<byte>, op: Op)
    requires |b| == RecordSize
    ensures var d := Deserialize(Advance(b, op));
      && d.state == Deserialize(b).state
      && d.longitude == Deserialize(b).longitude
      && d.latitude == Deserialize(b).latitude
      && d.productNote == Deserialize(b).productNote
  {
    AdvanceKeepsRange(b, op, 96, 104);
    AdvanceKeepsRange(b, op, 104, 112);
    AdvanceKeepsRange(b, op, 112, 144);
    AdvanceKeepsRange(b, op, 144, 152);
    AdvanceUnchanged(b, op);
    DeserializeExact(Advance(b, op));
    DeserializeExact(b);
  }

  // ------------------------------------------------ reachable stores

  /** A call to the application, with the inputs the model takes as
      parameters. */
  datatype Call =
    | AddItemCall(item: Item, nonce: u64, xfer: AssetTransferTxn, mbrPay: PaymentTxn,
                  sender: Address, app: Address)
    | GetItemCall(upc: u64)
    | TransitionCall(op: Op, upc: u64)

  /** The store after a call: the new store, or the old one when it aborts. */
  function Step(s: Store, c: Call): Store
  {
    var effect := match c
      case AddItemCall(item, nonce, xfer, pay, sender, app) =>
        AddItemEffect(s, item, nonce, xfer, pay, sender, app)
      case GetItemCall(_) => Ok(s)
      case TransitionCall(op, upc) => Transition(s, op, upc);
    if effect.Ok? then effect.value else s
  }

  function Run(s: Store, calls: seq<Call>): Store
    decreases |calls|
  {
    if calls == [] then s else Run(Step(s, calls[0]), calls[1..])
  }

  /** Every box the application owns has a 48-byte creation key. */
  predicate OnlyCreationKeys(s: Store)
  {
    forall k :: k in s ==> |k| == 48
  }

  lemma StepKeepsCreationKeys(s: Store, c: Call)
    requires OnlyCreationKeys(s)
    ensures OnlyCreationKeys(Step(s, c))
    ensures c.TransitionCall? ==> Step(s, c) == s
  {
    match c
    case AddItemCall(item, nonce, xfer, pay, sender, app) =>
      KeysDisjoint(sender, xfer.xferAsset, nonce, 0);
    case GetItemCall(_) =>
    case TransitionCall(op, upc) =>
      assert |ItemKey(upc)| == 8;
  }

  /** From a fresh application, whatever calls are made, every box has a
      48-byte key, so `get_item` and all seven transitions always abort with
      `BoxMissing`: the transition engine is unreachable as written. */
  lemma {:induction false} TransitionsUnreachable(calls: seq<Call>, op: Op, upc: u64)
    ensures OnlyCreationKeys(Run(map[], calls))
    ensures Transition(Run(map[], calls), op, upc) == Err(BoxMissing)
    ensures GetItemResult(Run(map[], calls), upc) == Err(BoxMissing)
  {
    ReachableKeys(map[], calls);
    assert |ItemKey(upc)| == 8;
  }

  lemma {:induction false} ReachableKeys(s: Store, calls: seq<Call>)
    requires OnlyCreationKeys(s)
    ensures OnlyCreationKeys(Run(s, calls))
    decreases |calls|
  {
    if calls != [] {
      StepKeepsCreationKeys(s, calls[0]);
      ReachableKeys(Step(s, calls[0]), calls[1..]);
    }
  }
}
