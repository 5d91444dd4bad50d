/** What a caller of the kernel can conclude from the contracts alone. */
module Scenarios {
  import opened Wrappers
  import opened Storage
  import TierLookup

  /**
   * Two tiers registered in order, a file created on the second one, then
   * the same path created on the first one, which then wins every lookup.
   */
  method CreateOnBothTiers(t0: Time, t1: Time)
  {
    var storage := new StorageManager(0);
    ghost var before := storage.Contents();
    var ssd := new Tier(storage, "SSD", 100, 0.0001, 2.0);
    TierLookup.LookupAppendEmpty(before, "/a");
    before := storage.Contents();
    var hdd := new Tier(storage, "HDD", 800, 0.01, 0.25);
    TierLookup.LookupAppendEmpty(before, "/a");
    assert storage.tiers == [ssd, hdd];
    // registering the two empty tiers left "/a" unknown
    assert TierLookup.Lookup(storage.Contents(), "/a") == None;

    before := storage.Contents();
    var d := hdd.CreateFile(t0, "/a");
    var onHdd := hdd.content["/a"];
    // the file lives on the HDD but names the default tier as its host
    assert onHdd.tier == ssd && onHdd.size == 0;
    assert storage.fileCreated.resolutions == [FileCreated(onHdd, hdd)];
    TierLookup.LookupAfterInsert(before, 1, "/a", onHdd);
    var found := storage.GetFile("/a");
    assert found == Some(onHdd);

    before := storage.Contents();
    d := ssd.CreateFile(t1, "/a");
    var onSsd := ssd.content["/a"];
    TierLookup.LookupAfterInsert(before, 0, "/a", onSsd);
    found := storage.GetFile("/a");
    assert found == Some(onSsd);
    assert storage.fileCreated.resolutions == [FileCreated(onHdd, hdd), FileCreated(onSsd, ssd)];
    assert storage.fileAccess.generation == 0;

    d := hdd.ReadFile(t1, "/a");
    assert storage.fileAccess.resolutions == [FileAccessed(onHdd, hdd, false)];

    var m := StorageManager.Migrate(onSsd, ssd, 0.0, 0.0, 0.0, 0.0);
    assert m == None;
    m := StorageManager.Migrate(onSsd, hdd, 1.0, 2.0, 3.0, 4.0);
    assert m == Some(8.0);
  }
}
