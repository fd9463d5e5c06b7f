/**
 * The host objects the camera page works through: the tracks of a media
 * stream, which `stopCamera` stops one by one, and the device's plain
 * key-value storage.
 */
module Host {
  import opened Wrappers

  /** One hardware track of a media stream; live until stopped. */
  class Track {
    var live: bool

    constructor ()
      ensures live
    {
      live := true;
    }

    /** `track.stop()`: releases the hardware; stopping twice is harmless. */
    method Stop()
      modifies this
      ensures !live
    {
      live := false;
    }
  }

  /** A granted media stream and its tracks (`getTracks()`). */
  class MediaStream {
    const tracks: seq<Track>

    constructor (tracks: seq<Track>)
      ensures this.tracks == tracks
    {
      this.tracks := tracks;
    }

    /** True when every track of the stream has been stopped. */
    predicate Released()
      reads tracks
    {
      forall i :: 0 <= i < |tracks| ==> !tracks[i].live
    }
  }

  /** `window.creationStorage.plain`: string values under string keys. */
  class PlainStorage {
    var items: map<string, string>

    constructor ()
      ensures items == map[]
    {
      items := map[];
    }

    /** `setItem(key, value)`: replaces whatever was stored under `key`. */
    method SetItem(key: string, value: string)
      modifies this
      ensures items == old(items)[key := value]
    {
      items := items[key := value];
    }

    /** `getItem(key)`: the stored value, or `None` (the host's null) when there is none. */
    method GetItem(key: string) returns (value: Option<string>)
      ensures value.Some? <==> key in items
      ensures value.Some? ==> value.value == items[key]
    {
      value := if key in items then Some(items[key]) else None;
    }
  }
}
