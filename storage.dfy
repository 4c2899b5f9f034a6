/**
 * Versioned persistence of the whole application state in one storage slot.
 * The slot holds nothing, an envelope `{ version, timestamp, data }`, or text
 * that does not parse as one. Serialisation itself is not modelled: an
 * envelope that was written is read back as it was written.
 */
module Storage {
  import opened Wrappers

  /** The envelope version this build writes and accepts. */
  const Version: string := "1.0.0"

  datatype Envelope<T> = Envelope(version: string, timestamp: int, data: T)

  datatype SlotContent<T> = Parsed(envelope: Envelope<T>) | Unparsable

  datatype StorageInfo = StorageInfo(version: string, timestamp: int)

  /** The storage service over its single slot. */
  class StorageService<T> {
    var slot: Option<SlotContent<T>>

    constructor (initial: Option<SlotContent<T>>)
      ensures slot == initial
    {
      slot := initial;
    }

    /**
     * `save`: wraps `data` in an envelope stamped with this build's version
     * and the clock reading `now`, and writes it over whatever the slot held.
     * When the write is refused (`accepted` false: quota exceeded or storage
     * unavailable), the failure is swallowed and the slot keeps its content.
     */
    method Save(data: T, now: int, accepted: bool)
      modifies this
      ensures accepted ==> slot == Some(Parsed(Envelope(Version, now, data)))
      ensures !accepted ==> slot == old(slot)
    {
      if accepted {
        slot := Some(Parsed(Envelope(Version, now, data)));
      }
    }

    /**
     * `load`: nothing from an empty slot or from content that does not parse,
     * leaving the slot as it was; from an envelope of another version,
     * nothing, and the slot is cleared; otherwise the stored data, leaving the
     * slot as it was.
     */
    method Load() returns (r: Option<T>)
      modifies this
      ensures old(slot).None? ==> r.None? && slot == old(slot)
      ensures old(slot) == Some(Unparsable) ==> r.None? && slot == old(slot)
      ensures old(slot).Some? && old(slot).value.Parsed? && old(slot).value.envelope.version != Version ==>
                r.None? && slot.None?
      ensures old(slot).Some? && old(slot).value.Parsed? && old(slot).value.envelope.version == Version ==>
                r == Some(old(slot).value.envelope.data) && slot == old(slot)
    {
      match slot
      case None =>
        r := None;
      case Some(Unparsable) =>
        r := None;
      case Some(Parsed(envelope)) =>
        if envelope.version != Version {
          Clear();
          r := None;
        } else {
          r := Some(envelope.data);
        }
    }

    /** `clear`: the slot is empty afterwards, whatever it held. */
    method Clear()
      modifies this
      ensures slot.None?
    {
      slot := None;
    }

    /**
     * `getStorageInfo`: the version and timestamp of a stored envelope;
     * nothing when the slot is empty or does not parse. It changes nothing.
     */
    method GetStorageInfo() returns (r: Option<StorageInfo>)
      ensures r.Some? <==> slot.Some? && slot.value.Parsed?
      ensures r.Some? ==> r.value == StorageInfo(slot.value.envelope.version, slot.value.envelope.timestamp)
    {
      match slot
      case None =>
        r := None;
      case Some(Unparsable) =>
        r := None;
      case Some(Parsed(envelope)) =>
        r := Some(StorageInfo(envelope.version, envelope.timestamp));
    }
  }

  /**
   * Save followed by load, with the version unchanged in between, gives back
   * the saved data and leaves the saved envelope in place; clearing twice is
   * the same as clearing once; a stored envelope of another version is gone
   * after one load, so storage information then reports nothing.
   */
  method SaveLoadClearScenario<T>(service: StorageService<T>, data: T, now: int, stale: T)
    modifies service
    ensures service.slot.None?
  {
    service.Save(data, now, true);
    var loaded := service.Load();
    assert loaded == Some(data);
    assert service.slot == Some(Parsed(Envelope(Version, now, data)));
    var info := service.GetStorageInfo();
    assert info == Some(StorageInfo(Version, now));

    service.Clear();
    service.Clear();
    assert service.slot.None?;

    service.slot := Some(Parsed(Envelope("0.9.0", now, stale)));
    loaded := service.Load();
    assert loaded.None? && service.slot.None?;
    info := service.GetStorageInfo();
    assert info.None?;
  }
}
