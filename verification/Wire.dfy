/** The values that cross the wire (protocol/protocol.go, protocol/prev.go), as decoded Go values. */
module Wire {
  import opened Lists

  type Byte = b: int | 0 <= b < 256

  /** A Go string or byte slice. */
  type Text = seq<Byte>

  /** The characters a JSON number may be spelled with. */
  predicate IsNumberByte(c: Byte) {
    0x30 <= c <= 0x39 || c in {0x2B, 0x2D, 0x2E, 0x45, 0x65}
  }

  /** A number as encoding/json spells it: at most 24 bytes, the width of the longest float64. */
  type NumberText = t: Text | 1 <= |t| <= 24 && forall i | 0 <= i < |t| :: IsNumberByte(t[i]) witness [0x30]

  /** A value json.Unmarshal produces. */
  datatype Json =
    | Null
    | Bool(b: bool)
    | Num(spelling: NumberText)
    | Str(text: Text)
    | Arr(items: seq<Json>)
    | Obj(fields: map<Text, Json>)

  type Extras = map<Text, Json>

  /** No null anywhere inside the value. */
  predicate NullFree(v: Json) {
    match v
    case Null => false
    case Arr(items) => forall e | e in items :: NullFree(e)
    case Obj(fields) => forall k | k in fields :: NullFree(fields[k])
    case _ => true
  }

  predicate ExtrasNullFree(x: Extras) {
    forall k | k in x :: NullFree(x[k])
  }

  /** The previous sample as a delta; an absent field means "as in the carrying state". */
  datatype StatePrev = StatePrev(
    seqNo: nat,
    timestamp: int,
    areaId: Option<Text>,
    position: seq<real>,
    positionNone: bool,
    orientation: Text,
    anim: Option<Text>,
    extras: Option<Extras>,
    extrasNone: bool)

  /** One sample of a player. A nil and an empty extras map are kept apart, as reflect.DeepEqual does. */
  datatype State = State(
    playerId: string,
    seqNo: nat,
    timestamp: int,
    areaId: Text,
    position: seq<real>,
    orientation: Text,
    anim: Text,
    extras: Option<Extras>,
    prev: Option<StatePrev>)
}
