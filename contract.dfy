/** The `SupplyChain` application: item creation, the read accessor and the
    seven stage transitions, each a read-check-write over the box store. */
module Contract {
  import opened Bytes
  import opened Wrappers
  import opened Codec
  import opened Boxes

  const Harvested: u64 := 0
  const Processed: u64 := 1
  const Packed: u64 := 2
  const ForSale: u64 := 3
  const Sold: u64 := 4
  const Shipped: u64 := 5
  const Received: u64 := 6
  const Purchased: u64 := 7

  /** Bytes the accessor and six of the transitions extract from offset 0. */
  const BoxValueSize: nat := 64

  /** Where the transitions read and write the stage: not the codec's
      `StateOffset`. */
  const StageOffset: nat := 16
  const PriceOffset: nat := 24
  const OwnerOffset: nat := 32

  /** An account address. */
  type Address = a: seq<byte> | |a| == 32 witness Zeros(32)

  /** The fields of the grouped payment transaction that `add_item` reads. */
  datatype PaymentTxn = PaymentTxn(sender: Address, receiver: Address)

  /** The fields of the grouped asset transfer that `add_item` reads. */
  datatype AssetTransferTxn =
    AssetTransferTxn(sender: Address, assetReceiver: Address, xferAsset: u64, assetAmount: u64)

  /** Why a call aborts: a failed `assert`, or a box opcode that fails. */
  datatype Error =
    | PaymentSenderMismatch
    | PaymentReceiverMismatch
    | BoxAlreadyExists
    | TransferSenderMismatch
    | TransferReceiverMismatch
    | ZeroTransferAmount
    | BoxCreateFailed
    | BoxMissing
    | OutOfBounds
    | WrongStage(expected: u64, actual: u64)

  /** The key `add_item` creates: sender, then `itob(asset)`, then `itob(nonce)`. */
  function CreationKey(sender: Address, asset: u64, nonce: u64): (r: Key)
    ensures |r| == 48
    ensures r[..32] == sender && r[32..40] == Itob(asset) && r[40..48] == Itob(nonce)
  {
    sender + Itob(asset) + Itob(nonce)
  }

  /** The key `get_item` and every transition look up: `itob(upc)`. */
  function ItemKey(upc: u64): (r: Key)
    ensures |r| == 8 && Btoi(r) == upc
  {
    Itob(upc)
  }

  /** The seven transitions, with the inputs each one writes into the box. */
  datatype Op =
    | Process
    | Pack
    | Sell(price: u64)
    | Buy(distributor: Address)
    | Ship
    | Receive(retailer: Address)
    | Purchase(consumer: Address)

  /** The one stage each transition accepts. */
  function RequiredStage(op: Op): u64
  {
    match op
    case Process => Harvested
    case Pack => Processed
    case Sell(_) => Packed
    case Buy(_) => ForSale
    case Ship => Sold
    case Receive(_) => Shipped
    case Purchase(_) => Received
  }

  /** The stage each transition writes, as the source's literal constants. */
  function NextStage(op: Op): u64
  {
    match op
    case Process => Processed
    case Pack => Packed
    case Sell(_) => ForSale
    case Buy(_) => Sold
    case Ship => Shipped
    case Receive(_) => Received
    case Purchase(_) => Purchased
  }

  /** How many bytes from offset 0 a transition's extract needs: `process_item`
      extracts only the 8 stage bytes, the others 64 bytes from offset 0. */
  function ReadEnd(op: Op): nat
  {
    if op.Process? then StageOffset + 8 else BoxValueSize
  }

  /** The stage as the transitions read it: bytes 16..24. */
  function StageOf(b: seq<byte>): u64
    requires |b| >= StageOffset + 8
  {
    Btoi(b[StageOffset..StageOffset + 8])
  }

  /** The box contents after an accepted transition: the next stage at 16,
      then the price at 24 (sell) or the caller at 32 (buy, receive, purchase). */
  function Advance(b: seq<byte>, op: Op): (r: seq<byte>)
    requires |b| >= ReadEnd(op)
    ensures |r| == |b|
  {
    var staged := Overwrite(b, StageOffset, Itob(NextStage(op)));
    match op
    case Sell(price) => Overwrite(staged, PriceOffset, Itob(price))
    case Buy(caller) => Overwrite(staged, OwnerOffset, caller)
    case Receive(caller) => Overwrite(staged, OwnerOffset, caller)
    case Purchase(caller) => Overwrite(staged, OwnerOffset, caller)
    case _ => staged
  }

  /** The effect of a transition on the whole store: an error, or the new store. */
  function Transition(s: Store, op: Op, upc: u64): (r: Result<Store, Error>)
    ensures ItemKey(upc) !in s ==> r == Err(BoxMissing)
  {
    var key := ItemKey(upc);
    if key !in s then Err(BoxMissing)
    else if |s[key]| < ReadEnd(op) then Err(OutOfBounds)
    else if StageOf(s[key]) != RequiredStage(op) then
      Err(WrongStage(RequiredStage(op), StageOf(s[key])))
    else Ok(s[key := Advance(s[key], op)])
  }

  /** The effect of `add_item` on the whole store, checks in source order. */
  function AddItemEffect(s: Store, item: Item, nonce: u64, xfer: AssetTransferTxn,
                         mbrPay: PaymentTxn, sender: Address, app: Address): (r: Result<Store, Error>)
    ensures var key := CreationKey(sender, xfer.xferAsset, nonce);
      r.Ok? ==> key !in s && r.value.Keys == s.Keys + {key} && r.value[key] == Serialize(item)
  {
    var key := CreationKey(sender, xfer.xferAsset, nonce);
    if mbrPay.sender != sender then Err(PaymentSenderMismatch)
    else if mbrPay.receiver != app then Err(PaymentReceiverMismatch)
    else if key in s then Err(BoxAlreadyExists)
    else if xfer.sender != sender then Err(TransferSenderMismatch)
    else if xfer.assetReceiver != app then Err(TransferReceiverMismatch)
    else if xfer.assetAmount == 0 then Err(ZeroTransferAmount)
    else if |Serialize(item)| > MaxBoxSize then Err(BoxCreateFailed)
    else Ok(s[key := Serialize(item)])
  }

  /** What `get_item` answers: `btoi` of the first 8 of 64 extracted bytes. */
  function GetItemResult(s: Store, upc: u64): (r: Result<u64, Error>)
    ensures r.Ok? <==> ItemKey(upc) in s && |s[ItemKey(upc)]| >= BoxValueSize
    ensures ItemKey(upc) !in s ==> r == Err(BoxMissing)
  {
    var key := ItemKey(upc);
    if key !in s then Err(BoxMissing)
    else if |s[key]| < BoxValueSize then Err(OutOfBounds)
    else Ok(Btoi(s[key][..8]))
  }

  /** A call's outcome matches `effect`: on success the store is the new
      store, on failure the error is reported and the store is untouched. */
  predicate Applied(r: Outcome<Error>, before: Store, after: Store, effect: Result<Store, Error>)
  {
    match effect
    case Ok(next) => r == Pass && after == next
    case Err(e) => r == Fail(e) && after == before
  }

  class SupplyChain {
    /** The application's boxes. */
    var boxes: Store

    /** A newly created application owns no boxes. */
    constructor ()
      ensures boxes == map[]
    {
      boxes := map[];
    }

    method AddItem(item: Item, nonce: u64, xfer: AssetTransferTxn, mbrPay: PaymentTxn,
                   sender: Address, app: Address) returns (r: Outcome<Error>)
      modifies this
      ensures Applied(r, old(boxes), boxes, AddItemEffect(old(boxes), item, nonce, xfer, mbrPay, sender, app))
    {
      if mbrPay.sender != sender { return Fail(PaymentSenderMismatch); }
      if mbrPay.receiver != app { return Fail(PaymentReceiverMismatch); }
      var boxKey := sender + Itob(xfer.xferAsset) + Itob(nonce);
      var (_, boxExists) := Length(boxes, boxKey);
      if boxExists { return Fail(BoxAlreadyExists); }
      if xfer.sender != sender { return Fail(TransferSenderMismatch); }
      if xfer.assetReceiver != app { return Fail(TransferReceiverMismatch); }
      if xfer.assetAmount == 0 { return Fail(ZeroTransferAmount); }
      var serialized := Serialize(item);
      var created := Create(boxes, boxKey, |serialized|);
      if created.None? { return Fail(BoxCreateFailed); }
      boxes := created.value.1;
      var replaced := Replace(boxes, boxKey, 0, serialized);
      boxes := replaced.value;
      assert boxes[boxKey] == serialized;
      r := Pass;
    }

    method GetItem(upc: u64) returns (r: Result<u64, Error>)
      ensures r.Ok? <==> ItemKey(upc) in boxes && |boxes[ItemKey(upc)]| >= BoxValueSize
      ensures r.Ok? ==> r.value == Btoi(boxes[ItemKey(upc)][..8])
      ensures ItemKey(upc) !in boxes ==> r == Err(BoxMissing)
      ensures ItemKey(upc) in boxes && |boxes[ItemKey(upc)]| < BoxValueSize ==> r == Err(OutOfBounds)
      ensures r == GetItemResult(boxes, upc)
    {
      var boxKey := Itob(upc);
      var (_, boxExists) := Length(boxes, boxKey);
      if !boxExists { return Err(BoxMissing); }
      var itemData := Extract(boxes, boxKey, 0, BoxValueSize);
      if itemData.None? { return Err(OutOfBounds); }
      var sku := Btoi(itemData.value[..8]);
      assert itemData.value[..8] == boxes[boxKey][..8];
      r := Ok(sku);
    }

    /** The shared first half of `pack_item` … `purchase_item`: the box must
        exist and hold 64 bytes; answers the stage at bytes 16..24. */
    method LoadStage(upc: u64) returns (r: Result<u64, Error>)
      ensures ItemKey(upc) !in boxes ==> r == Err(BoxMissing)
      ensures ItemKey(upc) in boxes && |boxes[ItemKey(upc)]| < BoxValueSize ==> r == Err(OutOfBounds)
      ensures ItemKey(upc) in boxes && |boxes[ItemKey(upc)]| >= BoxValueSize
              ==> r == Ok(StageOf(boxes[ItemKey(upc)]))
    {
      var boxKey := Itob(upc);
      var (_, boxExists) := Length(boxes, boxKey);
      if !boxExists { return Err(BoxMissing); }
      var itemData := Extract(boxes, boxKey, 0, BoxValueSize);
      if itemData.None? { return Err(OutOfBounds); }
      assert itemData.value[16..24] == boxes[boxKey][16..24];
      r := Ok(Btoi(itemData.value[16..24]));
    }

    method ProcessItem(upc: u64) returns (r: Outcome<Error>)
      modifies this
      ensures Applied(r, old(boxes), boxes, Transition(old(boxes), Process, upc))
    {
      var boxKey := Itob(upc);
      var (_, boxExists) := Length(boxes, boxKey);
      if !boxExists { return Fail(BoxMissing); }
      var extracted := Extract(boxes, boxKey, StageOffset, 8);
      if extracted.None? { return Fail(OutOfBounds); }
      assert extracted.value == boxes[boxKey][16..24];
      var currentState := Btoi(extracted.value);
      if currentState != Harvested { return Fail(WrongStage(Harvested, currentState)); }
      var replaced := Replace(boxes, boxKey, StageOffset, Itob(Processed));
      boxes := replaced.value;
      r := Pass;
    }

    method PackItem(upc: u64) returns (r: Outcome<Error>)
      modifies this
      ensures Applied(r, old(boxes), boxes, Transition(old(boxes), Pack, upc))
    {
      var boxKey := Itob(upc);
      var itemState := LoadStage(upc);
      if itemState.Err? { return Fail(itemState.error); }
      if itemState.value != Processed { return Fail(WrongStage(Processed, itemState.value)); }
      var replaced := Replace(boxes, boxKey, StageOffset, Itob(Packed));
      boxes := replaced.value;
      r := Pass;
    }

    method SellItem(upc: u64, price: u64) returns (r: Outcome<Error>)
      modifies this
      ensures Applied(r, old(boxes), boxes, Transition(old(boxes), Sell(price), upc))
    {
      var boxKey := Itob(upc);
      var itemState := LoadStage(upc);
      if itemState.Err? { return Fail(itemState.error); }
      if itemState.value != Packed { return Fail(WrongStage(Packed, itemState.value)); }
      ghost var staged := Overwrite(old(boxes)[boxKey], StageOffset, Itob(ForSale));
      var replaced := Replace(boxes, boxKey, StageOffset, Itob(ForSale));
      boxes := replaced.value;
      assert boxes == old(boxes)[boxKey := staged];
      replaced := Replace(boxes, boxKey, PriceOffset, Itob(price));
      boxes := replaced.value;
      assert boxes == old(boxes)[boxKey := Overwrite(staged, PriceOffset, Itob(price))];
      assert Overwrite(staged, PriceOffset, Itob(price)) == Advance(old(boxes)[boxKey], Sell(price));
      r := Pass;
    }

    method BuyItem(upc: u64, sender: Address) returns (r: Outcome<Error>)
      modifies this
      ensures Applied(r, old(boxes), boxes, Transition(old(boxes), Buy(sender), upc))
    {
      var boxKey := Itob(upc);
      var itemState := LoadStage(upc);
      if itemState.Err? { return Fail(itemState.error); }
      if itemState.value != ForSale { return Fail(WrongStage(ForSale, itemState.value)); }
      ghost var staged := Overwrite(old(boxes)[boxKey], StageOffset, Itob(Sold));
      var replaced := Replace(boxes, boxKey, StageOffset, Itob(Sold));
      boxes := replaced.value;
      assert boxes == old(boxes)[boxKey := staged];
      replaced := Replace(boxes, boxKey, OwnerOffset, sender);
      boxes := replaced.value;
      assert boxes == old(boxes)[boxKey := Overwrite(staged, OwnerOffset, sender)];
      assert Overwrite(staged, OwnerOffset, sender) == Advance(old(boxes)[boxKey], Buy(sender));
      r := Pass;
    }

    method ShipItem(upc: u64) returns (r: Outcome<Error>)
      modifies this
      ensures Applied(r, old(boxes), boxes, Transition(old(boxes), Ship, upc))
    {
      var boxKey := Itob(upc);
      var itemState := LoadStage(upc);
      if itemState.Err? { return Fail(itemState.error); }
      if itemState.value != Sold { return Fail(WrongStage(Sold, itemState.value)); }
      var replaced := Replace(boxes, boxKey, StageOffset, Itob(Shipped));
      boxes := replaced.value;
      r := Pass;
    }

    method ReceiveItem(upc: u64, sender: Address) returns (r: Outcome<Error>)
      modifies this
      ensures Applied(r, old(boxes), boxes, Transition(old(boxes), Receive(sender), upc))
    {
      var boxKey := Itob(upc);
      var itemState := LoadStage(upc);
      if itemState.Err? { return Fail(itemState.error); }
      if itemState.value != Shipped { return Fail(WrongStage(Shipped, itemState.value)); }
      ghost var staged := Overwrite(old(boxes)[boxKey], StageOffset, Itob(Received));
      var replaced := Replace(boxes, boxKey, StageOffset, Itob(Received));
      boxes := replaced.value;
      assert boxes == old(boxes)[boxKey := staged];
      replaced := Replace(boxes, boxKey, OwnerOffset, sender);
      boxes := replaced.value;
      assert boxes == old(boxes)[boxKey := Overwrite(staged, OwnerOffset, sender)];
      assert Overwrite(staged, OwnerOffset, sender) == Advance(old(boxes)[boxKey], Receive(sender));
      r := Pass;
    }

    method PurchaseItem(upc: u64, sender: Address) returns (r: Outcome<Error>)
      modifies this
      ensures Applied(r, old(boxes), boxes, Transition(old(boxes), Purchase(sender), upc))
    {
      var boxKey := Itob(upc);
      var itemState := LoadStage(upc);
      if itemState.Err? { return Fail(itemState.error); }
      if itemState.value != Received { return Fail(WrongStage(Received, itemState.value)); }
      ghost var staged := Overwrite(old(boxes)[boxKey], StageOffset, Itob(Purchased));
      var replaced := Replace(boxes, boxKey, StageOffset, Itob(Purchased));
      boxes := replaced.value;
      assert boxes == old(boxes)[boxKey := staged];
      replaced := Replace(boxes, boxKey, OwnerOffset, sender);
      boxes := replaced.value;
      assert boxes == old(boxes)[boxKey := Overwrite(staged, OwnerOffset, sender)];
      assert Overwrite(staged, OwnerOffset, sender) == Advance(old(boxes)[boxKey], Purchase(sender));
      r := Pass;
    }
  }
}
