/**
 * Normalisation of the device mix format (a WAVEFORMATEX, possibly the
 * WAVEFORMATEXTENSIBLE wrapper) into the `AudioFormat` message sent to clients.
 */
module AudioFormats {
  import opened Wrappers
  import opened WinTypes

  /** Format tags, as defined in mmreg.h. */
  const WAVE_FORMAT_PCM: u16 := 1
  const WAVE_FORMAT_IEEE_FLOAT: u16 := 3
  const WAVE_FORMAT_EXTENSIBLE: u16 := 0xFFFE

  /** The SubFormat GUID of WAVEFORMATEXTENSIBLE, reduced to the two GUIDs the server knows. */
  datatype SubFormat = SubPCM | SubFloat | SubOther

  /**
   * The fields of WAVEFORMATEX the server reads, plus the SubFormat of the
   * extensible wrapper (only meaningful when the tag is WAVE_FORMAT_EXTENSIBLE).
   */
  datatype WaveFormat = WaveFormat(
    formatTag: u16,
    channels: u16,
    samplesPerSec: u32,
    blockAlign: u16,
    bitsPerSample: u16,
    subFormat: SubFormat)

  /** The `AudioFormat` message; `formatTag` is None while it was never set. */
  datatype AudioFormat = AudioFormat(
    formatTag: Option<u16>,
    channels: nat,
    sampleRate: nat,
    bitsPerSample: nat)

  /** A freshly constructed message: nothing set yet. */
  const Fresh := AudioFormat(None, 0, 0, 0)

  /** The tag names one of the two concrete encodings. */
  predicate IsFlatTag(tag: u16) {
    tag == WAVE_FORMAT_PCM || tag == WAVE_FORMAT_IEEE_FLOAT
  }

  /** The format names a concrete encoding, directly or through the extensible wrapper. */
  predicate Resolvable(wf: WaveFormat) {
    IsFlatTag(wf.formatTag) || (wf.formatTag == WAVE_FORMAT_EXTENSIBLE && wf.subFormat != SubOther)
  }

  /**
   * The flattening rule as a closed lookup table: every (tag, sub-format)
   * pair the server can stream, and the concrete tag it resolves to.
   */
  const FlatteningTable: map<(u16, SubFormat), u16> := map[
    (WAVE_FORMAT_PCM, SubPCM) := WAVE_FORMAT_PCM,
    (WAVE_FORMAT_PCM, SubFloat) := WAVE_FORMAT_PCM,
    (WAVE_FORMAT_PCM, SubOther) := WAVE_FORMAT_PCM,
    (WAVE_FORMAT_IEEE_FLOAT, SubPCM) := WAVE_FORMAT_IEEE_FLOAT,
    (WAVE_FORMAT_IEEE_FLOAT, SubFloat) := WAVE_FORMAT_IEEE_FLOAT,
    (WAVE_FORMAT_IEEE_FLOAT, SubOther) := WAVE_FORMAT_IEEE_FLOAT,
    (WAVE_FORMAT_EXTENSIBLE, SubPCM) := WAVE_FORMAT_PCM,
    (WAVE_FORMAT_EXTENSIBLE, SubFloat) := WAVE_FORMAT_IEEE_FLOAT
  ]

  /**
   * `set_format`: writes the resolved tag (PCM and IEEE_FLOAT as they are,
   * EXTENSIBLE flattened by its sub-format) and copies channels, rate and
   * bits. Any other tag, or an unknown sub-format, does not write the tag,
   * so the message keeps whatever tag `prior` had.
   */
  function SetFormat(prior: AudioFormat, wf: WaveFormat): (r: AudioFormat)
    ensures r.channels == wf.channels
    ensures r.sampleRate == wf.samplesPerSec
    ensures r.bitsPerSample == wf.bitsPerSample
    ensures IsFlatTag(wf.formatTag) ==> r.formatTag == Some(wf.formatTag)
    ensures wf.formatTag == WAVE_FORMAT_EXTENSIBLE && wf.subFormat == SubPCM ==> r.formatTag == Some(WAVE_FORMAT_PCM)
    ensures wf.formatTag == WAVE_FORMAT_EXTENSIBLE && wf.subFormat == SubFloat ==> r.formatTag == Some(WAVE_FORMAT_IEEE_FLOAT)
    ensures !Resolvable(wf) ==> r.formatTag == prior.formatTag
  {
    var tag :=
      if wf.formatTag == WAVE_FORMAT_PCM || wf.formatTag == WAVE_FORMAT_IEEE_FLOAT then
        Some(wf.formatTag)
      else if wf.formatTag == WAVE_FORMAT_EXTENSIBLE then
        if wf.subFormat == SubPCM then Some(WAVE_FORMAT_PCM)
        else if wf.subFormat == SubFloat then Some(WAVE_FORMAT_IEEE_FLOAT)
        else prior.formatTag
      else
        prior.formatTag;
    AudioFormat(tag, wf.channels, wf.samplesPerSec, wf.bitsPerSample)
  }

  /**
   * On a fresh message, `set_format` agrees with the lookup table: the tag
   * is set exactly for the pairs in the table, to the table's value.
   */
  lemma SetFormatFollowsTable(wf: WaveFormat)
    ensures SetFormat(Fresh, wf).formatTag.Some? <==> (wf.formatTag, wf.subFormat) in FlatteningTable
    ensures (wf.formatTag, wf.subFormat) in FlatteningTable ==>
              SetFormat(Fresh, wf).formatTag == Some(FlatteningTable[(wf.formatTag, wf.subFormat)])
  {
    var key := (wf.formatTag, wf.subFormat);
    assert FlatteningTable.Keys == {
      (WAVE_FORMAT_PCM, SubPCM), (WAVE_FORMAT_PCM, SubFloat), (WAVE_FORMAT_PCM, SubOther),
      (WAVE_FORMAT_IEEE_FLOAT, SubPCM), (WAVE_FORMAT_IEEE_FLOAT, SubFloat), (WAVE_FORMAT_IEEE_FLOAT, SubOther),
      (WAVE_FORMAT_EXTENSIBLE, SubPCM), (WAVE_FORMAT_EXTENSIBLE, SubFloat)};
    if Resolvable(wf) {
      match wf.subFormat
      case SubPCM => assert key in FlatteningTable;
      case SubFloat => assert key in FlatteningTable;
      case SubOther => assert key in FlatteningTable;
    } else {
      assert key !in FlatteningTable.Keys;
    }
  }

  /**
   * A tag `set_format` writes is always a concrete one: it is never
   * EXTENSIBLE nor any tag other than PCM and IEEE_FLOAT.
   */
  lemma SetFormatTagIsFlat(prior: AudioFormat, wf: WaveFormat)
    requires prior.formatTag.Some? ==> IsFlatTag(prior.formatTag.value)
    ensures SetFormat(prior, wf).formatTag.Some? ==> IsFlatTag(SetFormat(prior, wf).formatTag.value)
  {
  }

  /**
   * The pre-rewrite in `do_loopback_recording`: an EXTENSIBLE format whose
   * sub-format is IEEE float gets the plain IEEE_FLOAT tag; the rest of
   * the record is left alone.
   */
  function RewriteExtensible(wf: WaveFormat): (r: WaveFormat)
    ensures r == wf.(formatTag := r.formatTag)
    ensures r.formatTag != wf.formatTag <==> wf.formatTag == WAVE_FORMAT_EXTENSIBLE && wf.subFormat == SubFloat
    ensures r.formatTag != wf.formatTag ==> r.formatTag == WAVE_FORMAT_IEEE_FLOAT
  {
    if wf.formatTag == WAVE_FORMAT_EXTENSIBLE && wf.subFormat == SubFloat then
      wf.(formatTag := WAVE_FORMAT_IEEE_FLOAT)
    else
      wf
  }

  /** Rewriting twice is the same as rewriting once. */
  lemma RewriteIdempotent(wf: WaveFormat)
    ensures RewriteExtensible(RewriteExtensible(wf)) == RewriteExtensible(wf)
  {
  }

  /**
   * The pre-rewrite is redundant for `set_format`: composing them yields
   * the same message as `set_format` alone, for every input and every prior
   * message.
   */
  lemma RewriteThenSetFormat(prior: AudioFormat, wf: WaveFormat)
    ensures SetFormat(prior, RewriteExtensible(wf)) == SetFormat(prior, wf)
  {
  }
}
