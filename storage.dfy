/**
 * The in-memory storage kernel: files, the tiers that hold them, and the
 * manager that owns the tier list, the event slots and the migration rule.
 *
 * A simulation event slot (a one-element list holding the pending event) is
 * an `EventSlot`: its generation number names the pending event, and its
 * ghost log records the value every earlier event was resolved with.
 */
module Storage {
  import opened Wrappers
  import TierLookup

  /** Simulated seconds. */
  type Time = real

  /** Simulated seconds until an operation completes. */
  type Delay = real

  /** A stored object: a plain record. */
  class File {
    const path: string
    /** The host tier. */
    const tier: Tier
    /** Octets. */
    const size: int
    const creationTime: Time
    const lastModification: Time
    const lastAccess: Time

    constructor (path: string, tier: Tier, size: int, ctime: Time, lastMod: Time, lastAccess: Time)
      ensures this.path == path && this.tier == tier && this.size == size
      ensures creationTime == ctime && lastModification == lastMod && this.lastAccess == lastAccess
    {
      this.path := path;
      this.tier := tier;
      this.size := size;
      creationTime := ctime;
      lastModification := lastMod;
      this.lastAccess := lastAccess;
    }
  }

  /** The value an event is resolved with. */
  datatype EventValue =
    | FileCreated(file: File, tier: Tier)
    | FileAccessed(file: File, tier: Tier, isWrite: bool)
    | OccupationIncreased(tier: Tier)

  /** A one-event holder: the event `generation` is pending, all earlier ones are resolved. */
  class EventSlot {
    var generation: nat
    ghost var resolutions: seq<EventValue>

    /** Every earlier event was resolved exactly once, the pending one not yet. */
    ghost predicate Valid()
      reads this
    {
      |resolutions| == generation
    }

    constructor ()
      ensures Valid() && generation == 0 && resolutions == []
    {
      generation := 0;
      resolutions := [];
    }
  }

  /**
   * The slot's pending event was resolved with `value` and a fresh, unresolved
   * event took its place.
   */
  twostate predicate Fired(slot: EventSlot, new value: EventValue)
    reads slot
  {
    && slot.generation == old(slot.generation) + 1
    && slot.resolutions == old(slot.resolutions) + [value]
  }

  /** A storage unit: a dictionary from path to file, registered with one manager. */
  class Tier {
    const name: string
    /** Octets. */
    const size: int
    /** Seconds; stored, never used by the kernel. */
    const latency: real
    /** Stored, never used by the kernel. */
    const throughput: real
    var content: map<string, File>
    const manager: StorageManager

    /** Builds the tier and appends it to the manager's tier list. */
    constructor (storage: StorageManager, name: string, size: int, latency: real, throughput: real)
      requires storage.Valid()
      modifies storage
      ensures storage.Valid()
      ensures storage.tiers == old(storage.tiers) + [this]
      ensures storage.Contents() == old(storage.Contents()) + [map[]]
      ensures this.name == name && this.size == size
      ensures this.latency == latency && this.throughput == throughput
      ensures content == map[] && manager == storage
    {
      this.name := name;
      this.size := size;
      this.latency := latency;
      this.throughput := throughput;
      content := map[];
      manager := storage;
      new;
      storage.tiers := storage.tiers + [this];
    }

    /** Membership test on the tier's dictionary. */
    function HasFile(path: string): (r: bool)
      reads this
      ensures r <==> path in content.Keys
    {
      path in content.Keys
    }

    /** A placeholder: completes at once and changes nothing. */
    method RenameFile() returns (delay: Delay)
      ensures delay == 0.0
    {
      delay := 0.0;
    }

    /**
     * Stores a new empty file under `path`, replacing any previous entry, and
     * fires the file-created event with the file and this tier. The new file's
     * host tier is the manager's default tier, whichever tier stores it.
     */
    method CreateFile(timestamp: Time, path: string) returns (delay: Delay)
      requires manager.Valid() && manager.HasDefaultTier()
      modifies this, manager.fileCreated
      ensures manager.Valid()
      ensures path in content && fresh(content[path])
      ensures content == old(content)[path := content[path]]
      ensures content[path].path == path && content[path].tier == manager.GetDefaultTier()
      ensures content[path].size == 0
      ensures content[path].creationTime == timestamp
      ensures content[path].lastModification == timestamp
      ensures content[path].lastAccess == timestamp
      ensures Fired(manager.fileCreated, FileCreated(content[path], this))
      ensures unchanged(manager.fileAccess, manager.diskOccupationIncrease)
      ensures forall k :: 0 <= k < |manager.tiers| && manager.tiers[k] == this ==>
        manager.Contents() == old(manager.Contents())[k := content]
      ensures this !in manager.tiers ==> manager.Contents() == old(manager.Contents())
      ensures delay == 0.0
    {
      var file := new File(path, manager.GetDefaultTier(), 0, timestamp, timestamp, timestamp);
      content := content[path := file];
      manager.FireEvent(manager.fileCreated, FileCreated(file, this));
      delay := 0.0;
    }

    /** A placeholder: completes at once and changes nothing. */
    method OpenFile() returns (delay: Delay)
      ensures delay == 0.0
    {
      delay := 0.0;
    }

    /** Fires the access event for the file under `path`, as a read; `path` must be stored here. */
    method ReadFile(timestamp: Time, path: string) returns (delay: Delay)
      requires path in content
      requires manager.Valid()
      modifies manager.fileAccess
      ensures manager.Valid()
      ensures Fired(manager.fileAccess, FileAccessed(content[path], this, false))
      ensures unchanged(this, manager.fileCreated, manager.diskOccupationIncrease)
      ensures delay == 0.0
    {
      manager.FireEvent(manager.fileAccess, FileAccessed(content[path], this, false));
      delay := 0.0;
    }

    /**
     * Fires the access event for the file under `path`, as a write, then the
     * occupation-increase event with this tier; `path` must be stored here.
     */
    method WriteFile(timestamp: Time, path: string) returns (delay: Delay)
      requires path in content
      requires manager.Valid()
      modifies manager.fileAccess, manager.diskOccupationIncrease
      ensures manager.Valid()
      ensures Fired(manager.fileAccess, FileAccessed(content[path], this, true))
      ensures Fired(manager.diskOccupationIncrease, OccupationIncreased(this))
      ensures unchanged(this, manager.fileCreated)
      ensures delay == 0.0
    {
      manager.FireEvent(manager.fileAccess, FileAccessed(content[path], this, true));
      manager.FireEvent(manager.diskOccupationIncrease, OccupationIncreased(this));
      delay := 0.0;
    }

    /** A placeholder: completes at once and changes nothing. */
    method CloseFile() returns (delay: Delay)
      ensures delay == 0.0
    {
      delay := 0.0;
    }

    /** A placeholder: completes at once and removes nothing. */
    method DeleteFile() returns (delay: Delay)
      ensures delay == 0.0
    {
      delay := 0.0;
    }
  }

  /**
   * The cost of a migration: creating the copy, then the slower of reading the
   * source and writing the target, then deleting the source copy.
   */
  function MigrationDelay(create: Delay, read: Delay, write: Delay, delete: Delay): (r: Delay)
    ensures r >= create + read + delete && r >= create + write + delete
    ensures r == create + read + delete || r == create + write + delete
  {
    0.0 + create + (if write > read then write else read) + delete
  }

  /** Owns the ordered tier list, the default tier index and the three event slots. */
  class StorageManager {
    var tiers: seq<Tier>
    const defaultTierIndex: int
    const fileCreated: EventSlot
    const fileAccess: EventSlot
    const diskOccupationIncrease: EventSlot

    /**
     * The three slots are distinct and each is consistent; every listed tier
     * is registered with this manager and appears once.
     */
    ghost predicate Valid()
      reads this, fileCreated, fileAccess, diskOccupationIncrease
    {
      && fileCreated != fileAccess
      && fileCreated != diskOccupationIncrease
      && fileAccess != diskOccupationIncrease
      && fileCreated.Valid() && fileAccess.Valid() && diskOccupationIncrease.Valid()
      && (forall t :: t in tiers ==> t.manager == this)
      && (forall i, j :: 0 <= i < j < |tiers| ==> tiers[i] != tiers[j])
    }

    /** The tiers' dictionaries, in list order. */
    ghost function Contents(): seq<map<string, File>>
      reads this, tiers
    {
      seq(|tiers|, i requires 0 <= i < |tiers| reads this, tiers => tiers[i].content)
    }

    constructor (defaultTierIndex: int)
      ensures Valid()
      ensures tiers == [] && this.defaultTierIndex == defaultTierIndex
      ensures fresh(fileCreated) && fresh(fileAccess) && fresh(diskOccupationIncrease)
      ensures fileCreated.generation == 0 && fileCreated.resolutions == []
      ensures fileAccess.generation == 0 && fileAccess.resolutions == []
      ensures diskOccupationIncrease.generation == 0 && diskOccupationIncrease.resolutions == []
    {
      tiers := [];
      this.defaultTierIndex := defaultTierIndex;
      fileCreated := new EventSlot();
      fileAccess := new EventSlot();
      diskOccupationIncrease := new EventSlot();
    }

    /** Resolves the slot's pending event with `value` after installing a fresh one. */
    method FireEvent(event: EventSlot, value: EventValue)
      requires event.Valid()
      modifies event
      ensures event.Valid()
      ensures Fired(event, value)
    {
      var e := event.generation;
      event.generation := e + 1;
      event.resolutions := event.resolutions + [value];
    }

    /** The default tier index is a valid list index, negative ones counting from the end. */
    predicate HasDefaultTier()
      reads this
    {
      -|tiers| <= defaultTierIndex < |tiers|
    }

    function GetDefaultTier(): (t: Tier)
      reads this
      requires HasDefaultTier()
      ensures t in tiers
      ensures Valid() ==> t.manager == this
      ensures 0 <= defaultTierIndex ==> t == tiers[defaultTierIndex]
      ensures defaultTierIndex < 0 ==> t == tiers[|tiers| + defaultTierIndex]
    {
      if 0 <= defaultTierIndex then tiers[defaultTierIndex] else tiers[|tiers| + defaultTierIndex]
    }

    /** The file under `path` in the first tier, in list order, that holds it. */
    method GetFile(path: string) returns (r: Option<File>)
      ensures r == TierLookup.Lookup(Contents(), path)
    {
      var i := 0;
      while i < |tiers|
        invariant 0 <= i <= |tiers|
        invariant forall j :: 0 <= j < i ==> path !in Contents()[j]
      {
        var tier := tiers[i];
        if tier.HasFile(path) {
          TierLookup.FirstHolderIsLeast(Contents(), path, i);
          return Some(tier.content[path]);
        }
        i := i + 1;
      }
      return None;
    }

    /**
     * Nothing to do (None) when the file is already hosted by `targetTier`;
     * otherwise the migration delay composed from the four operation delays.
     */
    static method Migrate(file: File, targetTier: Tier, createDelay: Delay, readDelay: Delay,
                          writeDelay: Delay, deleteDelay: Delay) returns (r: Option<Delay>)
      ensures r.None? <==> file.tier == targetTier
      ensures r.Some? ==> r.value == MigrationDelay(createDelay, readDelay, writeDelay, deleteDelay)
    {
      if file.tier == targetTier {
        return None;
      }
      var delay := MigrationDelay(createDelay, readDelay, writeDelay, deleteDelay);
      return Some(delay);
    }
  }
}
