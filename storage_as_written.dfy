/** The history store as the code is written, for an entry that parses to
    a JSON value that is not an array (`null`, a number, an object, a
    string). The read returns that value unchanged, and the array methods
    the other operations call on it (`find`, `unshift`, `filter`) throw a
    TypeError. The store in module Storage reads such an entry as empty. */
module StorageAsWritten {
  import opened Web
  import opened Storage

  /** What getPhotoShootHistory returns as written: the parsed array, or the
      parsed non-array value itself. */
  datatype Parsed = ArrayValue(items: seq<PhotoShoot>) | NonArrayValue

  /** Whether an operation returns or throws a TypeError. */
  datatype Behaviour<T> = Returns(value: T) | RaisesTypeError

  function ReadAsWritten(slot: Slot, hasWindow: bool): (p: Parsed)
    ensures p.NonArrayValue? <==> hasWindow && slot.NonArray?
  {
    if !hasWindow then ArrayValue([])
    else match slot
      case Shoots(entries) => ArrayValue(entries)
      case NonArray => NonArrayValue
      case _ => ArrayValue([])
  }

  /** getPhotoShootById as written: `find` on the parsed value. */
  function GetByIdAsWritten(slot: Slot, hasWindow: bool, id: string): Behaviour<Option<PhotoShoot>> {
    match ReadAsWritten(slot, hasWindow)
    case ArrayValue(items) => Returns(FirstWithId(items, id))
    case NonArrayValue => RaisesTypeError
  }

  /** savePhotoShoot as written: the new slot, or a TypeError from `unshift`
      before anything is written. */
  function SaveAsWritten(slot: Slot, hasWindow: bool, saved: PhotoShoot): Behaviour<Slot> {
    match ReadAsWritten(slot, hasWindow)
    case ArrayValue(items) => Returns(if hasWindow then Shoots(Trim([saved] + items)) else slot)
    case NonArrayValue => RaisesTypeError
  }

  /** deletePhotoShoot as written: the new slot, or a TypeError from `filter`. */
  function DeleteAsWritten(slot: Slot, hasWindow: bool, id: string): Behaviour<Slot> {
    match ReadAsWritten(slot, hasWindow)
    case ArrayValue(items) => Returns(if hasWindow then Shoots(WithoutId(items, id)) else slot)
    case NonArrayValue => RaisesTypeError
  }

  /** The counterexample: the entry text `null` is stored. Reading it yields
      a non-array, and get, save and delete all throw, where the store is
      meant to treat unreadable data as an empty history. The corrected
      store lists it as empty, finds nothing and saves over it. */
  lemma NullEntryBreaksStore(id: string, saved: PhotoShoot)
    ensures ReadAsWritten(NonArray, true) == NonArrayValue
    ensures GetByIdAsWritten(NonArray, true, id) == RaisesTypeError
    ensures SaveAsWritten(NonArray, true, saved) == RaisesTypeError
    ensures DeleteAsWritten(NonArray, true, id) == RaisesTypeError
    ensures ReadHistory(NonArray, true) == []
    ensures FirstWithId(ReadHistory(NonArray, true), id) == None
    ensures Trim([saved] + ReadHistory(NonArray, true)) == [saved]
  {
  }

  /** On every other entry the code as written and the corrected store agree. */
  lemma AsWrittenAgreesElsewhere(slot: Slot, hasWindow: bool, id: string, saved: PhotoShoot)
    requires !(hasWindow && slot.NonArray?)
    ensures ReadAsWritten(slot, hasWindow) == ArrayValue(ReadHistory(slot, hasWindow))
    ensures GetByIdAsWritten(slot, hasWindow, id) == Returns(FirstWithId(ReadHistory(slot, hasWindow), id))
    ensures SaveAsWritten(slot, hasWindow, saved)
      == Returns(if hasWindow then Shoots(Trim([saved] + ReadHistory(slot, hasWindow))) else slot)
    ensures DeleteAsWritten(slot, hasWindow, id)
      == Returns(if hasWindow then Shoots(WithoutId(ReadHistory(slot, hasWindow), id)) else slot)
  {
  }
}
