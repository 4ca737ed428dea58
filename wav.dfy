/** The header logic of pkg/reader/wav_reader.go for the canonical 44-byte
    RIFF/WAVE PCM header: which headers the reader accepts, how many
    samples it expects, and the header the writer derives for a mono
    16-bit signal. Reading and writing bytes are not modelled. */
module WavFormat {
  import opened Wrappers

  newtype uint16 = x: int | 0 <= x < 0x1_0000
  newtype uint32 = x: int | 0 <= x < 0x1_0000_0000

  /** A four-byte chunk tag, one character per byte. */
  type Tag = seq<char>

  const RiffChunkID: Tag := "RIFF"
  const WaveFormat: Tag := "WAVE"
  const FmtSubchunkID: Tag := "fmt "
  const DataChunkID: Tag := "data"

  /** Audio format 1 is uncompressed PCM, the only one accepted. */
  const PCM: uint16 := 1

  datatype WavHeader = WavHeader(
    ChunkID: Tag,
    ChunkSize: uint32,
    Format: Tag,
    Subchunk1ID: Tag,
    Subchunk1Size: uint32,
    AudioFormat: uint16,
    NumChannels: uint16,
    SampleRate: uint32,
    ByteRate: uint32,
    BlockAlign: uint16,
    BitsPerSample: uint16,
    Subchunk2ID: Tag,
    Subchunk2Size: uint32)

  datatype WavError =
    | NotRiff
    | NotWave
    | FmtChunkNotFound
    | UnsupportedAudioFormat(format: uint16)
    | DataChunkNotFound

  /** validateHeader: the four tags and the audio format, in that order;
      the first mismatch decides the error. */
  function ValidateHeader(h: WavHeader): (r: Outcome<WavError>)
    ensures r.Pass? <==>
      && h.ChunkID == "RIFF" && h.Format == "WAVE" && h.Subchunk1ID == "fmt "
      && h.AudioFormat == 1 && h.Subchunk2ID == "data"
    ensures h.ChunkID != RiffChunkID ==> r == Fail(NotRiff)
    ensures h.ChunkID == RiffChunkID && h.Format != WaveFormat ==> r == Fail(NotWave)
    ensures h.ChunkID == RiffChunkID && h.Format == WaveFormat && h.Subchunk1ID != FmtSubchunkID ==>
      r == Fail(FmtChunkNotFound)
    ensures h.ChunkID == RiffChunkID && h.Format == WaveFormat && h.Subchunk1ID == FmtSubchunkID && h.AudioFormat != PCM ==>
      r == Fail(UnsupportedAudioFormat(h.AudioFormat))
  {
    if h.ChunkID != RiffChunkID then Fail(NotRiff)
    else if h.Format != WaveFormat then Fail(NotWave)
    else if h.Subchunk1ID != FmtSubchunkID then Fail(FmtChunkNotFound)
    else if h.AudioFormat != PCM then Fail(UnsupportedAudioFormat(h.AudioFormat))
    else if h.Subchunk2ID != DataChunkID then Fail(DataChunkNotFound)
    else Pass
  }

  /** Channel count, sample width, alignment, rates and sizes are never
      looked at: changing any of them does not change the verdict. */
  lemma LayoutFieldsNotValidated(h: WavHeader, chunkSize: uint32, subchunk1Size: uint32, numChannels: uint16,
                                 sampleRate: uint32, byteRate: uint32, blockAlign: uint16,
                                 bitsPerSample: uint16, subchunk2Size: uint32)
    ensures ValidateHeader(h.(ChunkSize := chunkSize, Subchunk1Size := subchunk1Size, NumChannels := numChannels,
                              SampleRate := sampleRate, ByteRate := byteRate, BlockAlign := blockAlign,
                              BitsPerSample := bitsPerSample, Subchunk2Size := subchunk2Size))
            == ValidateHeader(h)
  {
  }

  /** The number of samples ReadSamples allocates: whole blocks in the
      data chunk. A zero BlockAlign would divide by zero. */
  function SampleCount(h: WavHeader): (n: uint32)
    requires h.BlockAlign > 0
    ensures (n as int) * (h.BlockAlign as int) <= h.Subchunk2Size as int
    ensures h.Subchunk2Size as int < (n as int + 1) * (h.BlockAlign as int)
  {
    ((h.Subchunk2Size as int) / (h.BlockAlign as int)) as uint32
  }

  /** uint32 arithmetic wraps around modulo 2³². */
  function Wrap32(x: int): (r: uint32)
    ensures 0 <= x < 0x1_0000_0000 ==> r as int == x
  {
    (x % 0x1_0000_0000) as uint32
  }

  /** What uint32(sampleRate) gives for a rate in range: the fraction is
      dropped. */
  function RateField(sampleRate: real): (r: uint32)
    requires 0.0 <= sampleRate < 4294967296.0
    ensures r as real <= sampleRate < r as real + 1.0
  {
    sampleRate.Floor as uint32
  }

  /** The header WriteWavFile derives for n mono 16-bit samples. */
  function WrittenHeader(n: nat, sampleRate: real): (h: WavHeader)
    requires 0.0 <= sampleRate < 4294967296.0
  {
    var rate := RateField(sampleRate);
    WavHeader(
      ChunkID := RiffChunkID,
      ChunkSize := Wrap32(36 + Wrap32(n * 2) as int),
      Format := WaveFormat,
      Subchunk1ID := FmtSubchunkID,
      Subchunk1Size := 16,
      AudioFormat := PCM,
      NumChannels := 1,
      SampleRate := rate,
      ByteRate := Wrap32(rate as int * 1 * (16 / 8)),
      BlockAlign := 1 * 16 / 8,
      BitsPerSample := 16,
      Subchunk2ID := DataChunkID,
      Subchunk2Size := Wrap32(n * 2))
  }

  /** The header assembled field by field as WriteWavFile does: constants
      first, then the fields derived from them. */
  method BuildHeader(n: nat, sampleRate: real) returns (h: WavHeader)
    requires 0.0 <= sampleRate < 4294967296.0
    ensures h.NumChannels == 1 && h.BitsPerSample == 16 && h.BlockAlign == 2 && h.AudioFormat == 1
    ensures h.ByteRate as int == (2 * h.SampleRate as int) % 0x1_0000_0000
    ensures h.Subchunk2Size as int == (2 * n) % 0x1_0000_0000
    ensures h.ChunkSize as int == (36 + h.Subchunk2Size as int) % 0x1_0000_0000
    ensures h == WrittenHeader(n, sampleRate)
  {
    h := WavHeader(RiffChunkID, 0, WaveFormat, FmtSubchunkID, 16, PCM, 1, RateField(sampleRate), 0, 0, 16, [], 0);
    h := h.(ByteRate := Wrap32(h.SampleRate as int * h.NumChannels as int * (h.BitsPerSample as int / 8)));
    h := h.(BlockAlign := h.NumChannels * h.BitsPerSample / 8);
    h := h.(Subchunk2ID := DataChunkID);
    h := h.(Subchunk2Size := Wrap32(n * h.BlockAlign as int));
    h := h.(ChunkSize := Wrap32(36 + h.Subchunk2Size as int));
  }

  /** A written header is accepted by the reader, and unless 2·n overflows
      the size field the reader expects exactly n samples back. */
  lemma WrittenHeaderReadsBack(n: nat, sampleRate: real)
    requires 0.0 <= sampleRate < 4294967296.0
    ensures ValidateHeader(WrittenHeader(n, sampleRate)) == Pass
    ensures WrittenHeader(n, sampleRate).BlockAlign > 0
    ensures 2 * n < 0x1_0000_0000 ==> SampleCount(WrittenHeader(n, sampleRate)) as int == n
  {
    var h := WrittenHeader(n, sampleRate);
    if 2 * n < 0x1_0000_0000 {
      assert h.Subchunk2Size as int == 2 * n;
    }
  }

  /** Past 2³¹ samples the size field wraps and the count read back is
      wrong: 2³¹ samples announce none at all. */
  lemma HugeSignalsWrapAround(sampleRate: real)
    requires 0.0 <= sampleRate < 4294967296.0
    ensures WrittenHeader(0x8000_0000, sampleRate).Subchunk2Size == 0
    ensures SampleCount(WrittenHeader(0x8000_0000, sampleRate)) == 0
  {
  }

  /** Validation lets a header with BlockAlign 0 through, so the sample
      count that follows it divides by zero: a written header with only its
      alignment cleared still validates, and `SampleCount` is out of reach. */
  lemma ZeroBlockAlignPassesValidation(n: nat, sampleRate: real)
    requires 0.0 <= sampleRate < 4294967296.0
    ensures ValidateHeader(WrittenHeader(n, sampleRate).(BlockAlign := 0)) == Pass
  {
    WrittenHeaderReadsBack(n, sampleRate);
  }
}
