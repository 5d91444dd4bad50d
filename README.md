# In-memory storage kernel of a tiered file-placement simulator

This project models the storage kernel of a simulator for multi-tier storage
hierarchies (SSD, HDD, tape) in HPC. The kernel lives in `storage.py` and has
three classes:

- **File** is a plain record. It holds a path, a host tier, a size in octets,
  and creation, modification and access times.
- **Tier** owns a dictionary from path to File. Building a Tier registers it
  in its manager's tier list. Creating, reading and writing a file fire
  events. Renaming, opening, closing and deleting are placeholders that
  return a zero delay.
- **StorageManager** holds the following:
  - the ordered tier list and a default tier index;
  - three one-event slots: file created, file accessed, and disk occupation
    increased;
  - `fire_event`, which installs a fresh pending event and then resolves the
    old one;
  - the first-match lookup across tiers;
  - the early-return rule and the delay arithmetic of migration.

Modules:

- `Storage` (storage.dfy) has the classes `File`, `Tier`, `StorageManager`
  and `EventSlot`. It also has the migration delay `MigrationDelay`.
  - Python's `is` is Dafny's reference equality on these classes.
  - `Tier.content` is a `map<string, File>` and `StorageManager.tiers` is a
    `seq<Tier>`. The methods reassign both.
  - Attributes the kernel never reassigns are `const`.
- An event slot (the one-element list `[env.event()]`) is an `EventSlot`:
  - `generation` numbers the pending event;
  - the ghost log `resolutions` holds the value each earlier event was
    resolved with;
  - `EventSlot.Valid` says that every earlier event was resolved exactly
    once and the pending one was not;
  - the two-state predicate `Fired` says the pending event was resolved with
    a given value and a fresh one took its place.
- `TierLookup` (lookup.dfy) states the cross-tier search on values. It takes
  the list of tier dictionaries in order, and the first one that holds the
  path wins. `StorageManager.GetFile` is proved equal to `TierLookup.Lookup`
  applied to `StorageManager.Contents()`.
- `Scenarios` (scenarios.dfy) is a client. It derives concrete outcomes from
  the contracts alone.
- `Wrappers` (wrappers.dfy) has `Option`, which stands for Python's `None`.

Facts about `storage.py` that shape the model:

- `read_file` and `write_file` index `content[path]` directly
  (storage.py:65, 72). An absent path raises, and the model makes it a
  precondition.
- `delete_file` takes no path and removes nothing (storage.py:82-86).
- No tier keeps a running total of the sizes it stores.
- `create_file` stamps the new file with the manager's default tier, not
  with the tier that stores it (storage.py:50).
- `create_file` fires `(file, self)` (storage.py:52). `read_file` and
  `write_file` fire `(file, self, is_write)` (storage.py:65, 72).
- `fire_event` resolves the old event in the same call
  (storage.py:98-101).
- `migrate` returns `None` on its early return (storage.py:123).
- Tiers register themselves one at a time, after the manager is built
  (storage.py:35, 92).

## Model

| member | source | states |
|---|---|---|
| `Storage.File.constructor` | storage.py:5-19 | The record's path, host tier, size and three timestamps are the given arguments. |
| `Storage.Tier.constructor` | storage.py:23-35 | The new tier is appended to the manager's list: the earlier tiers keep their order and position, the new dictionary is empty, the per-tier dictionaries gain one empty entry at the end, and the manager's invariant (distinct registered tiers, consistent slots) is preserved. |
| `Storage.Tier.HasFile` | storage.py:37-38 | True exactly when the path is a key of the tier's dictionary; a function, so it changes nothing. |
| `Storage.Tier.RenameFile` | storage.py:40-44 | Returns a zero delay and modifies nothing. |
| `Storage.Tier.CreateFile` | storage.py:46-53 | The path now maps to a fresh file (size 0, all three times equal to the timestamp, host tier the manager's default tier), any older entry is overwritten and other keys are kept; the file-created slot fired once with (file, this tier), the other slots are unchanged; the manager's per-tier dictionaries change only at this tier's position; returns 0. |
| `Storage.Tier.OpenFile` | storage.py:55-59 | Returns a zero delay and modifies nothing. |
| `Storage.Tier.ReadFile` | storage.py:61-66 | Requires the path to be stored here; the access slot fired once with (file, this tier, false), the tier and the other slots are unchanged; returns 0. |
| `Storage.Tier.WriteFile` | storage.py:68-74 | Requires the path to be stored here; the access slot fired once with (file, this tier, true) and the occupation slot once with (this tier); the tier and the created slot are unchanged; returns 0. |
| `Storage.Tier.CloseFile` | storage.py:76-80 | Returns a zero delay and modifies nothing. |
| `Storage.Tier.DeleteFile` | storage.py:82-86 | Returns a zero delay and removes nothing. |
| `Storage.EventSlot.constructor` | storage.py:94-96 | A new slot holds a fresh, unresolved event: generation 0 and an empty resolution log. |
| `Storage.StorageManager.constructor` | storage.py:90-96 | Empty tier list, the given default index, three distinct fresh slots with no resolved event. |
| `Storage.StorageManager.FireEvent` | storage.py:98-101 | The slot's pending event is resolved with the value and a fresh unresolved event is installed (generation up by one, log extended by exactly that value); no other object changes. |
| `Storage.StorageManager.GetDefaultTier` | storage.py:103-104 | Python list indexing with the default index, negative indices counting from the end: the result is one of the manager's tiers, registered with this manager. |
| `Storage.StorageManager.GetFile` | storage.py:106-114 | The result is the first-match lookup over the tiers' dictionaries in list order. |
| `Storage.StorageManager.Migrate` | storage.py:116-131 | Returns None exactly when the file's host tier is the target (reference identity); otherwise the migration delay of the given sub-delays. |
| `Storage.MigrationDelay` | storage.py:126-131 | The delay is the create delay, plus the larger of the read and write delays, plus the delete delay. |
| `TierLookup.FirstHolder` | storage.py:111-114 | Gives the lowest index whose dictionary holds the path; no earlier dictionary holds it. Gives None exactly when no dictionary holds it. |
| `TierLookup.Lookup` | storage.py:106-114 | None exactly when no tier holds the path; otherwise the value stored at a holding tier with no holder before it. |
| `TierLookup.FirstHolderIsLeast` | storage.py:111-113 | The converse: an index that holds the path, with no holder before it, is the first holder. |
| `TierLookup.LookupAppendEmpty` | storage.py:33-35 | Registering a new, empty tier at the end of the list changes no lookup result. |
| `TierLookup.LookupAfterInsert` | storage.py:51 | After a path is stored in tier k, the lookup of that path yields the new file, unless an earlier tier already held the path; that earlier entry still wins. |

## Left out

- The simulation environment is not modelled: event creation, resolution
  callbacks and scheduling in virtual time. A slot's generation number and
  log stand for its events. The order in which resolutions across different
  slots reach subscribers is not modelled.
- The constructor's `env` argument is not modelled, since it is only used to
  create events.
- Floating-point rounding is not modelled. Timestamps and delays are `real`,
  and `MigrationDelay` adds exactly.
- `Storage.StorageManager.Migrate` models only the early return and the
  delay sum. The sub-delays are parameters. The operational body
  (storage.py:127-129) calls `create_file`, `read_file` and `write_file`
  without their required arguments, so it raises at line 127 on its first
  call. Its effect on tier contents is not modelled.
- `Storage.StorageManager.GetDefaultTier` and `Storage.Tier.CreateFile`
  require the default index to be a valid list index (`HasDefaultTier`).
  The source raises `IndexError` otherwise (storage.py:104, reached from
  storage.py:50); the model does not represent that error path.
- `Storage.StorageManager.constructor` takes the default index as an
  explicit argument. The source's default value of 0 (storage.py:90) is not
  modelled.
- The command-line driver in `__main__.py` is not part of this model. It
  covers argument parsing, trace loading, noise on lifetimes, policy
  selection, running the simulation and plotting. The tier and manager
  constructor calls there do not match the signatures in `storage.py`.
- Policies and trace replay are not part of this model.
