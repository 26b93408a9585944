# SupplyChain: the item codec and the stage transitions

This project models the `SupplyChain` Algorand application in Dafny. The application tracks a
farm product through eight stages: harvested, processed, packed, for sale, sold, shipped,
received and purchased. It keeps one record per item in the application's boxes. Boxes are a
key-value store of byte strings.

The model covers two parts of `contract.py`.

- **The `Item` codec** (`Item.pad_string`, `Item.serialize`, `Item.deserialize`), in module
  `Codec`. It is written as pure functions. A record is 160 bytes:

  | bytes | field | encoding |
  |---|---|---|
  | 0..32 | `farm_address` | the address bytes |
  | 32..64 | `farm_name` | zero-padded to 32 bytes |
  | 64..96 | `farm_info` | zero-padded to 32 bytes |
  | 96..104 | `longitude` | big-endian `uint64` |
  | 104..112 | `latitude` | big-endian `uint64` |
  | 112..144 | `product_note` | zero-padded to 32 bytes |
  | 144..152 | `state` | big-endian `uint64` |
  | 152..160 | `price` | big-endian `uint64` |

  The lemmas prove:
  - the length law;
  - the byte layout;
  - the round trip in both directions;
  - what goes wrong for a string with a trailing zero byte, or one longer than its field.
- **The application** (`add_item`, `get_item` and the seven transitions `process_item` …
  `purchase_item`), in module `Contract`. The class `SupplyChain` owns the box store as a
  field `boxes`. Each ABI method is an imperative method that checks, reads and writes the
  boxes in the source's order. Its contract states the new store, or the error and an
  unchanged store, through a specification function. `Transition` covers the seven
  transitions; `AddItemEffect` and `GetItemResult` cover the other two.

The AVM primitives the contract calls are modelled as functions on the store, in modules
`Bytes` and `Boxes`:

- `itob` and `btoi`;
- `box_create`, `box_len`, `box_extract` and `box_replace`.

Module `Lifecycle` holds the properties of the application as written:

- the frame of every call;
- which transitions are accepted, and in which order;
- the full run from harvested to purchased;
- how the creation path and the transition path disagree.

The code disagrees with itself in two places, and the model keeps both exactly as
written.

1. `add_item` stores a record under `sender ‖ itob(asset) ‖ itob(nonce)`, a 48-byte key.
   `get_item` and every transition look up `itob(upc)`, an 8-byte key.
2. The transitions read and write the stage at bytes 16..24 and the owner at 32..64. In a
   record written by `serialize`, those bytes are the farm address and the farm name. The
   codec's `state` field is at 144..152.

`Lifecycle.TransitionsUnreachable` proves the consequence of (1): from a fresh application,
whatever sequence of calls is made, `get_item` and every transition abort with `BoxMissing`.
The transition engine is still modelled and proved on boxes that hold the right key. That
is the setting of `FullLifecycle` and the ordering lemmas.

Further facts about the code that the model keeps as they are:

- `serialize` does not reject an over-long string. It returns a longer record
  (`Codec.OverlongNameLost`).
- `deserialize` is total and checks no length. It reads Python slices, which clamp to the
  input's length.
- `Item` has no `owner` field. The transitions write the caller's address at bytes 32..64 of
  the box.
- No stage is set by default on creation. The stage bytes the transitions read are bytes
  16..24 of the farm address (`Lifecycle.StageBytesInFarmAddress`).
- The errors of the model are the distinct failing `assert`s and box opcodes of the code.

Every abort in the code happens before the call's first box write. So a failing call leaves
the store as it was without any rollback. The `Applied` predicate in each method's contract
states this.

## Model

| member | source | states |
|---|---|---|
| Codec.PadString | projects/SupplyChain-contracts/smart_contracts/supply_chain/contract.py:27-30 | `ljust` with zero bytes: the result is `max(len, width)` long, starts with the string, and is zero after it, so it never truncates |
| Codec.RStripZeros | projects/SupplyChain-contracts/smart_contracts/supply_chain/contract.py:50 | `rstrip(b"\x00")`: the result is a prefix of the input, everything it drops is a zero byte, and it does not end in a zero byte |
| Codec.PySlice | projects/SupplyChain-contracts/smart_contracts/supply_chain/contract.py:49-56 | Python slicing: never longer than `hi - lo`, and the exact slice when the input is long enough |
| Codec.Serialize | projects/SupplyChain-contracts/smart_contracts/supply_chain/contract.py:33-44 | the record is the address plus three strings padded to at least 32 bytes plus four 8-byte words, so its length is the address length + max(name, 32) + max(info, 32) + 16 + max(note, 32) + 16 |
| Codec.Deserialize | projects/SupplyChain-contracts/smart_contracts/supply_chain/contract.py:46-67 | any input decodes, with no length check; every decoded string is at most 32 bytes and does not end in a zero byte, and an input of 160 bytes or more decodes to a representable item |
| Codec.SerializeLength | projects/SupplyChain-contracts/smart_contracts/supply_chain/contract.py:33-44 | the record is 160 bytes exactly when every string field is at most 32 bytes, and never shorter than 160 |
| Codec.SerializeLayout | projects/SupplyChain-contracts/smart_contracts/supply_chain/contract.py:33-44 | the eight field ranges of a record: address 0..32, padded strings at 32, 64 and 112, `itob` words at 96, 104, 144 and 152 |
| Codec.RStripOfPad | projects/SupplyChain-contracts/smart_contracts/supply_chain/contract.py:30 | stripping undoes padding for a string without a trailing zero byte |
| Codec.PadOfRStrip | projects/SupplyChain-contracts/smart_contracts/supply_chain/contract.py:50 | padding a stripped 32-byte field gives back the field |
| Codec.DeserializeSerialize | projects/SupplyChain-contracts/smart_contracts/supply_chain/contract.py:33-67 | `deserialize(serialize(item)) == item` for every item with a 32-byte address and string fields of at most 32 bytes without trailing zeros |
| Codec.DeserializeExact | projects/SupplyChain-contracts/smart_contracts/supply_chain/contract.py:46-67 | on a 160-byte buffer `deserialize` reads exactly the eight field ranges, stripping the three string fields |
| Codec.SerializeDeserialize | projects/SupplyChain-contracts/smart_contracts/supply_chain/contract.py:33-67 | every 160-byte buffer decodes to a representable item that encodes back to the same buffer |
| Codec.TrailingZeroLost | projects/SupplyChain-contracts/smart_contracts/supply_chain/contract.py:30 | any name of at most 32 bytes that ends in a zero byte comes back with its trailing zeros stripped, so that item does not round-trip |
| Codec.OverlongNameLost | projects/SupplyChain-contracts/smart_contracts/supply_chain/contract.py:37 | a name over 32 bytes makes the record longer than 160 bytes, decodes to its stripped first 32 bytes, and does not round-trip |
| Bytes.Itob | projects/SupplyChain-contracts/smart_contracts/supply_chain/contract.py:39 | `op.itob` gives 8 bytes that `btoi` reads back as the same integer |
| Bytes.Btoi | projects/SupplyChain-contracts/smart_contracts/supply_chain/contract.py:52 | `op.btoi` on at most 8 bytes is big-endian and below 256 to the power of the length |
| Bytes.ItobOfBtoi | projects/SupplyChain-contracts/smart_contracts/supply_chain/contract.py:52-56 | `itob(btoi(b)) == b` for every 8-byte string |
| Bytes.ItobInjective | projects/SupplyChain-contracts/smart_contracts/supply_chain/contract.py:91 | distinct integers have distinct `itob` encodings |
| Boxes.Length | projects/SupplyChain-contracts/smart_contracts/supply_chain/contract.py:93 | `op.Box.length` answers `(length, exists)`: exists exactly when the key is present, and the length is the box's, or 0 for a missing box |
| Boxes.Create | projects/SupplyChain-contracts/smart_contracts/supply_chain/contract.py:105 | `op.Box.create` succeeds exactly for a size up to 32768, a key of 1..64 bytes, and no box of another size under the key; it adds a zero-filled box or, for an existing box, changes nothing |
| Boxes.Extract | projects/SupplyChain-contracts/smart_contracts/supply_chain/contract.py:119 | `op.Box.extract` succeeds exactly when the box exists and the range fits, and returns those bytes |
| Boxes.Replace | projects/SupplyChain-contracts/smart_contracts/supply_chain/contract.py:108 | `op.Box.replace` succeeds exactly when the box exists and the range fits; it writes the range and keeps the length, every other byte and every other box |
| Boxes.OverwriteKeepsRange | projects/SupplyChain-contracts/smart_contracts/supply_chain/contract.py:145 | a byte range outside a replaced range keeps its contents |
| Contract.CreationKey | projects/SupplyChain-contracts/smart_contracts/supply_chain/contract.py:91 | the `add_item` key is 48 bytes: the sender, then `itob(asset)`, then `itob(nonce)` |
| Contract.ItemKey | projects/SupplyChain-contracts/smart_contracts/supply_chain/contract.py:114 | the `get_item` and transition key is the 8 bytes `itob(upc)`, which `btoi` reads back as `upc` |
| Contract.Advance | projects/SupplyChain-contracts/smart_contracts/supply_chain/contract.py:144-145 | an accepted transition keeps the box length; the bytes it writes are stated by `Lifecycle.AdvanceStage`, `Lifecycle.AdvanceFields` and `Lifecycle.AdvanceUnchanged` |
| Contract.Transition | projects/SupplyChain-contracts/smart_contracts/supply_chain/contract.py:132-134 | a transition on a missing box fails with `BoxMissing`; the full acceptance condition is `Lifecycle.TransitionAccepts` |
| Contract.AddItemEffect | projects/SupplyChain-contracts/smart_contracts/supply_chain/contract.py:80-108 | on success the key was free, exactly that key is added, and its box holds `serialize(item)`; the iff and the frame are `Lifecycle.AddItemAccepts` |
| Contract.GetItemResult | projects/SupplyChain-contracts/smart_contracts/supply_chain/contract.py:110-126 | succeeds exactly when the `itob(upc)` box exists and holds at least 64 bytes; a missing box gives `BoxMissing` |
| Contract.SupplyChain.constructor | projects/SupplyChain-contracts/smart_contracts/supply_chain/contract.py:72-78 | a new application owns no boxes |
| Contract.SupplyChain.AddItem | projects/SupplyChain-contracts/smart_contracts/supply_chain/contract.py:80-108 | the new store is `AddItemEffect`, or the call aborts with the first failing check and leaves the store unchanged |
| Contract.SupplyChain.GetItem | projects/SupplyChain-contracts/smart_contracts/supply_chain/contract.py:110-126 | succeeds exactly when the `itob(upc)` box exists and holds 64 bytes, and then answers `btoi` of its first 8 bytes; otherwise `BoxMissing` or `OutOfBounds`; the answer is `GetItemResult` of the store |
| Contract.SupplyChain.LoadStage | projects/SupplyChain-contracts/smart_contracts/supply_chain/contract.py:150-156 | the shared first half of six transitions: `BoxMissing`, `OutOfBounds`, or the stage at bytes 16..24 |
| Contract.SupplyChain.ProcessItem | projects/SupplyChain-contracts/smart_contracts/supply_chain/contract.py:128-145 | the new store is `Transition(Process)`; the call reads only 8 bytes at 16, so a 24-byte box is enough |
| Contract.SupplyChain.PackItem | projects/SupplyChain-contracts/smart_contracts/supply_chain/contract.py:147-163 | the new store is `Transition(Pack)`, or the store is unchanged and the error is reported |
| Contract.SupplyChain.SellItem | projects/SupplyChain-contracts/smart_contracts/supply_chain/contract.py:165-182 | the new store is `Transition(Sell(price))`: stage 3 and the price written, or no change |
| Contract.SupplyChain.BuyItem | projects/SupplyChain-contracts/smart_contracts/supply_chain/contract.py:184-201 | the new store is `Transition(Buy(sender))`: stage 4 and the caller at 32..64, or no change |
| Contract.SupplyChain.ShipItem | projects/SupplyChain-contracts/smart_contracts/supply_chain/contract.py:203-219 | the new store is `Transition(Ship)`, or the store is unchanged and the error is reported |
| Contract.SupplyChain.ReceiveItem | projects/SupplyChain-contracts/smart_contracts/supply_chain/contract.py:221-238 | the new store is `Transition(Receive(sender))`: stage 6 and the caller at 32..64, or no change |
| Contract.SupplyChain.PurchaseItem | projects/SupplyChain-contracts/smart_contracts/supply_chain/contract.py:240-257 | the new store is `Transition(Purchase(sender))`: stage 7 and the caller at 32..64, or no change |
| Lifecycle.CreationKeyInjective | projects/SupplyChain-contracts/smart_contracts/supply_chain/contract.py:91 | creation keys are 48 bytes and determine sender, asset and nonce |
| Lifecycle.KeysDisjoint | projects/SupplyChain-contracts/smart_contracts/supply_chain/contract.py:91 | an `itob(upc)` key is 8 bytes, a creation key 48, so they never coincide |
| Lifecycle.AddItemAccepts | projects/SupplyChain-contracts/smart_contracts/supply_chain/contract.py:88-108 | `add_item` succeeds exactly when both payments come from the caller to the application, the amount is positive, the key is free and the record fits; it then adds exactly one box holding `serialize(item)` and keeps every other box |
| Lifecycle.AddItemNeverOverwrites | projects/SupplyChain-contracts/smart_contracts/supply_chain/contract.py:93-94 | once the payment checks pass, an existing box makes `add_item` fail with `BoxAlreadyExists` |
| Lifecycle.RepresentableItemFits | projects/SupplyChain-contracts/smart_contracts/supply_chain/contract.py:101-105 | a representable record is 160 bytes, well under the largest box |
| Lifecycle.AdvanceUnchanged | projects/SupplyChain-contracts/smart_contracts/supply_chain/contract.py:145 | a transition keeps the box length and every byte outside the ranges it writes |
| Lifecycle.AdvanceStage | projects/SupplyChain-contracts/smart_contracts/supply_chain/contract.py:144-145 | a transition writes at 16..24 the stage one above the one it requires |
| Lifecycle.AdvanceFields | projects/SupplyChain-contracts/smart_contracts/supply_chain/contract.py:182 | sell writes the price at 24..32; buy, receive and purchase write the caller at 32..64 |
| Lifecycle.AdvanceKeepsRange | projects/SupplyChain-contracts/smart_contracts/supply_chain/contract.py:199-201 | a byte range a transition does not write keeps its contents |
| Lifecycle.TransitionFrame | projects/SupplyChain-contracts/smart_contracts/supply_chain/contract.py:128-257 | an accepted transition changes only its own box, keeps its length, writes stage, price or owner, and nothing else |
| Lifecycle.StageAdvancesByOne | projects/SupplyChain-contracts/smart_contracts/supply_chain/contract.py:142-145 | an accepted transition found its required stage and leaves that stage plus one |
| Lifecycle.TransitionAccepts | projects/SupplyChain-contracts/smart_contracts/supply_chain/contract.py:128-257 | a transition is accepted exactly when the box exists, is long enough and holds the required stage; a wrong stage reports the expected and the actual stage; every write lies inside the bytes the transition read |
| Lifecycle.PurchasedIsTerminal | projects/SupplyChain-contracts/smart_contracts/supply_chain/contract.py:252 | no transition accepts a box at stage 7 |
| Lifecycle.OnlyNextAccepted | projects/SupplyChain-contracts/smart_contracts/supply_chain/contract.py:142-252 | after an accepted transition, the next accepted one on that box requires the following stage: no skip, repeat or regression |
| Lifecycle.LifecycleStages | projects/SupplyChain-contracts/smart_contracts/supply_chain/contract.py:142-252 | the seven transitions require stages 0 to 6 in turn |
| Lifecycle.RunChain | projects/SupplyChain-contracts/smart_contracts/supply_chain/contract.py:128-257 | a run of consecutive transitions from the right stage is accepted in full and moves the stage on by its length |
| Lifecycle.AdvanceAllKeepsRange | projects/SupplyChain-contracts/smart_contracts/supply_chain/contract.py:145 | a range no step of a run writes keeps its contents |
| Lifecycle.AdvanceAllAppend | projects/SupplyChain-contracts/smart_contracts/supply_chain/contract.py:128-257 | running two runs one after the other is running their concatenation |
| Lifecycle.PriceSurvives | projects/SupplyChain-contracts/smart_contracts/supply_chain/contract.py:182 | the price a sell writes survives later steps that do not write 24..32 |
| Lifecycle.OwnerIsLastCaller | projects/SupplyChain-contracts/smart_contracts/supply_chain/contract.py:257 | after a final purchase the owner bytes hold the consumer |
| Lifecycle.LifecyclePrice | projects/SupplyChain-contracts/smart_contracts/supply_chain/contract.py:182-257 | after the seven steps the price bytes hold the price sold at |
| Lifecycle.LifecycleOwner | projects/SupplyChain-contracts/smart_contracts/supply_chain/contract.py:201-257 | after the seven steps the owner bytes hold the consumer |
| Lifecycle.AdvanceAllKeepsTail | projects/SupplyChain-contracts/smart_contracts/supply_chain/contract.py:128-257 | no run of transitions changes a byte past 64 |
| Lifecycle.LifecycleRun | projects/SupplyChain-contracts/smart_contracts/supply_chain/contract.py:128-257 | from stage 0 the seven steps in order are all accepted and end at stage 7 with the sold price and the consumer as owner, changing no other box, length or byte past 64 |
| Lifecycle.FullLifecycle | projects/SupplyChain-contracts/smart_contracts/supply_chain/contract.py:128-257 | the same for the concrete run process, pack, sell, buy, ship, receive, purchase |
| Lifecycle.StageBytesInFarmAddress | projects/SupplyChain-contracts/smart_contracts/supply_chain/contract.py:156 | in a serialized record the transitions' stage bytes 16..24 are bytes 16..24 of the farm address, while `state` sits at 144..152 |
| Lifecycle.GetItemOnRecord | projects/SupplyChain-contracts/smart_contracts/supply_chain/contract.py:122 | on a serialized record `get_item` answers `btoi` of the first 8 bytes of the farm address |
| Lifecycle.TransitionKeepsCodecState | projects/SupplyChain-contracts/smart_contracts/supply_chain/contract.py:145 | no transition changes the decoded `state`, coordinates or product note of a 160-byte record |
| Lifecycle.StepKeepsCreationKeys | projects/SupplyChain-contracts/smart_contracts/supply_chain/contract.py:91 | every call keeps all box keys 48 bytes long, and a transition on such a store changes nothing |
| Lifecycle.ReachableKeys | projects/SupplyChain-contracts/smart_contracts/supply_chain/contract.py:91 | any sequence of calls keeps all box keys 48 bytes long |
| Lifecycle.TransitionsUnreachable | projects/SupplyChain-contracts/smart_contracts/supply_chain/contract.py:114 | from a fresh application, after any calls, `get_item` and every transition abort with `BoxMissing` |

## Left out

- `__init__`'s four actor fields `farmer`, `distributor`, `retailer` and `consumer` are not
  modelled. They are set to the zero address and never read.
- The commented-out `BoxMap` declaration and `set_price` method are not modelled, because
  they are not code.
- ARC-4 decoding of the `item` argument into the struct is not modelled. `farm_address` is
  a plain byte string. `serialize` reads its `.bytes`, and `deserialize`'s
  `arc4.Address(data[:32].hex())` is modelled as the first 32 bytes.
- Strings are modelled by their bytes. UTF-8 encoding in `pad_string` and decoding in
  `deserialize` are not modelled, so an invalid UTF-8 field does not abort in the model.
- `Txn.sender`, `Global.current_application_address` and the grouped transactions' fields
  are parameters. Asset identity is the `xfer_asset` id.
- Transaction fees and the minimum-balance requirement paid by `mbr_pay` are left out: the
  code never checks amounts beyond `asset_amount > 0`.
- Concurrency and atomic groups are left out. Each call runs alone, and an abort discards
  nothing because no call writes before its last check.
- The `productID` read in `get_item` is not modelled, because the code discards it.
- `tests/supply_chain_client_test.py` is not part of this model.
- AVM size limits other than the 32768-byte box limit are not modelled: a byte value over
  4096 bytes, which makes the concatenations in `serialize` abort, and the 2048-byte limit
  on application arguments, which keeps such an item from arriving at all. `add_item`
  therefore accepts only records up to 32768 bytes instead of 4096; no reachable call is
  affected.
- Bytes.Btoi: defined only for at most 8 bytes. The AVM fails on longer input, and no call
  site passes more than 8 bytes.
