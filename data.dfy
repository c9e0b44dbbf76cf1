/**
 * One log entry: its position in the replicated log, its payload bytes and
 * the leader term it was appended under. Construction copies the arguments
 * and never fails.
 */
module LogEntry {

  newtype U64 = x: int | 0 <= x < 0x1_0000_0000_0000_0000

  newtype U8 = x: int | 0 <= x < 0x100

  datatype Data = Data(index: U64, data: seq<U8>, term: U64)

  /** The default-constructed entry: its payload is empty. */
  function DefaultData(): (d: Data)
    ensures d.data == []
  {
    Data(0, [], 0)
  }

  /** The three-argument constructor: any index, payload and term. */
  function MakeData(index: U64, data: seq<U8>, term: U64): (d: Data)
    ensures d.index == index && d.term == term
    ensures |d.data| == |data| && forall i :: 0 <= i < |data| ==> d.data[i] == data[i]
  {
    Data(index, data, term)
  }

  /** Every entry is the one `MakeData` builds from its own fields, and
      `MakeData` is one-to-one. */
  lemma MakeDataRoundTrip(d: Data, index: U64, data: seq<U8>, term: U64)
    ensures MakeData(d.index, d.data, d.term) == d
    ensures MakeData(index, data, term) == d <==> d.index == index && d.data == data && d.term == term
  {
  }
}
