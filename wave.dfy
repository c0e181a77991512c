/** A wave as the igor2 library hands it over once decoded: the header fields the reader
    reads, the note text, the payload and its units. */
module Wave {
  import opened Values

  datatype WaveRecord = WaveRecord(
    nDim: seq<int>,              // element count per dimension (wave_header["nDim"])
    sfA: seq<real>,              // per-dimension scale factor (wave_header["sfA"])
    sfB: seq<real>,              // per-dimension offset (wave_header["sfB"])
    dimUnits: seq<seq<string>>,  // per-dimension unit fragments (wave_header["dimUnits"])
    note: string,                // the note blob, decoded
    wData: Payload,              // the payload array
    dataUnits: string)           // the payload's units

  /** The header arrays are indexed by the same dimension numbers. */
  predicate WellFormed(w: WaveRecord)
  {
    |w.sfA| == |w.nDim| && |w.sfB| == |w.nDim| && |w.dimUnits| == |w.nDim|
  }

  type Wave = w: WaveRecord | WellFormed(w)
    witness WaveRecord([], [], [], [], "", Payload([]), "")
}
