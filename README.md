# muCommander file monitor and NFS file, modelled in Dafny

This project models two parts of muCommander's virtual file system.

**The file monitor** (`FileMonitor`) watches one file for changes. Its polling thread wakes up once per
poll period. It reads the monitored attributes (date, size, permissions, is-directory, exists) and
compares each with the value recorded in the previous cycle. It records the new values and, when any attribute changed,
fires one event, carrying the set of changed attributes, to every registered listener. Monitoring starts and
stops on request, and a fresh start re-samples the baseline.

**The NFS file** (`NFSFile`) adapts a file on an NFS server to the file API. It does the following:
- builds the URL that the Yanfs client library expects (`nfs://host:<port><version><flag>m/<path>`);
- derives the absolute path from the file URL;
- answers the permission queries;
- caches its parent folder lazily;
- builds its children's URLs in `ls`;
- builds the target path of `mkdir`;
- chooses between a native rename and the generic move.

Files:
- `wrappers.dfy` (module `Wrappers`) defines `Option` and `Result`.
- `file_monitor.dfy` (module `FileMonitoring`) holds the attribute sets, the cycle as a function (`Poll`) with its properties, and the `FileMonitor` class.
- `nfs_url.dfy` (module `NfsUrl`) holds the string side: property lookup, transport flag, port text, native URL and a parser that inverts it, absolute path, child path.
- `nfs_file.dfy` (module `NfsFiles`) holds the `NfsFile` class, the `moveTo` routing, the permission surface and the constant answers.

How the model represents the source:
- **Thread and stop token.** The monitoring thread is the `running` flag. One iteration of `run()`'s loop is `FileMonitor.Cycle`.
- **File reads.** The file's getters are one `Sample` per cycle.
- **Elapsed time.** The time a cycle took is an input, `elapsed`.
- **Where the stop is seen.** The check at which the loop notices `stopMonitoring()` is an input, `stopAt` (1 to 4, or `NO_STOP`).
- **Baseline.** `run()` reads the baseline values before its loop. That is folded into `StartMonitoring(current)`.
- **Attribute masks.** The Java ints whose bit i stands for attribute i are modelled as the set of attributes whose bits are set (`AttributeSet`). `MaskBits` gives the int back, and `MaskBitsIdentifiesAttributes` proves that the int and the set determine each other. `attributes & X != 0` becomes `attributes * X != {}`, and `changed |= X` becomes `changed := changed + X`.
- **Polling cycle.** The five guarded blocks of the loop body are the methods `CheckDate` … `CheckExists`. Each is one `Step`, and `PollIsChecksInOrder` proves that the five steps in order amount to `Poll`.
- **Listener calls.** They are logged in the `notifications` field.
- **Foreign calls.** The Yanfs calls, `FileFactory.getFile`, `FileFactory.wrapArchive`, `FileURL.getParent`/`toString`, the filename filter and the generic `AbstractFile.moveTo` are oracle parameters. They are listed under "Left out".

Details of the code the model keeps:
- The transport property is named `protocol` (`NFSFile.java:63`).
- The `version` property is used verbatim, whatever its value (`NFSFile.java:108-110`).
- The port is omitted from the native URL when it is -1 as well as when it is 2049 (`NFSFile.java:117-118`).
- The file factory may return no file (null); the model uses `Option`.
- The permission get mask is 384. That is octal 600 (`rw-------`), and `MasksMatchCapabilities` proves it allows exactly user read and user write. The comment next to it in `NFSFile.java:342` says "300 octal", which does not match the value.

Assumptions about constants defined outside the modelled files:
- `FileProtocols.NFS` is `"nfs"`.
- The permission constants are USER_ACCESS = 2, GROUP_ACCESS = 1 and OTHER_ACCESS = 0, and READ = 4, WRITE = 2 and EXECUTE = 1. A mask has bit `permission << 3*access`. This layout is the one under which 384 means `rw-------`.

## Model

| member | source | states |
|---|---|---|
| FileMonitoring.MaskBits | source/com/mucommander/file/util/FileMonitor.java:40-52 | the int of an attribute set is below 32, and is 0 exactly for the empty set |
| FileMonitoring.MaskBitsIdentifiesAttributes | source/com/mucommander/file/util/FileMonitor.java:40-55 | the attribute constants are the distinct single bits 1, 2, 4, 8, 16; equal ints mean equal attribute sets |
| FileMonitoring.BitOfMask | source/com/mucommander/file/util/FileMonitor.java:40-52 | attribute i is in a set exactly when bit i of the set's int is set |
| FileMonitoring.MasksTestMembership | source/com/mucommander/file/util/FileMonitor.java:228-232 | testing a mask against an attribute constant is true exactly when the attribute is in the set |
| FileMonitoring.MaskTestReadsBit | source/com/mucommander/file/util/FileMonitor.java:228-232 | the int of a single-attribute constant is 2^k, and the set test against it answers exactly as reading bit k of the mask's int, as `attributes & X != 0` does |
| FileMonitoring.BaselineRecordsCurrent | source/com/mucommander/file/util/FileMonitor.java:228-232 | the starting values are the current ones for monitored attributes and 0/false for the others |
| FileMonitoring.BaselineKeepsBlank | source/com/mucommander/file/util/FileMonitor.java:228-232 | the baseline leaves every unmonitored attribute blank |
| FileMonitoring.PollFlags | source/com/mucommander/file/util/FileMonitor.java:242-278 | an attribute is reported changed iff it is monitored, checked before the stop, and its sample differs from the recorded value; the changed set is within the monitored set |
| FileMonitoring.PollRecords | source/com/mucommander/file/util/FileMonitor.java:245-278 | a checked attribute is recorded at its new value; any other keeps its recorded value |
| FileMonitoring.PollKeepsBlank | source/com/mucommander/file/util/FileMonitor.java:228-278 | unmonitored attributes stay at their blank values through any cycle |
| FileMonitoring.QuietWhenMonitoredUnchanged | source/com/mucommander/file/util/FileMonitor.java:242-281 | no change is reported when no monitored attribute differs |
| FileMonitoring.RestartHidesIdleChanges | source/com/mucommander/file/util/FileMonitor.java:226-232 | after a (re)start the baseline is re-sampled, so a change made while idle is never reported |
| FileMonitoring.CompletedCycleSettles | source/com/mucommander/file/util/FileMonitor.java:241-278 | after a completed cycle, a cycle over the same file state reports nothing |
| FileMonitoring.StopSkipsLaterAttributes | source/com/mucommander/file/util/FileMonitor.java:252-278 | once the stop is seen, that attribute and all later ones are neither reported nor recorded |
| FileMonitoring.StopKeepsEarlierChanges | source/com/mucommander/file/util/FileMonitor.java:245-281 | the changes found before the stop are those of an uninterrupted cycle, and are still delivered |
| FileMonitoring.PollIsChecksInOrder | source/com/mucommander/file/util/FileMonitor.java:245-278 | the five guarded checks made in order, each on the values left by the previous ones, give exactly the cycle's changed set and recorded values |
| FileMonitoring.ReplayTracksLatestSample | source/com/mucommander/file/util/FileMonitor.java:241-290 | after any number of cycles each monitored attribute holds its latest sample and each unmonitored one its starting value |
| FileMonitoring.EventsAreMonitoredChanges | source/com/mucommander/file/util/FileMonitor.java:241-281 | at most one event per cycle, each with a non-empty set of monitored attributes |
| FileMonitoring.SleepDuration | source/com/mucommander/file/util/FileMonitor.java:286 | the sleep is max(pollPeriod - elapsed, 0): never negative, at most the poll period when neither is negative |
| FileMonitoring.FileMonitor.constructor | source/com/mucommander/file/util/FileMonitor.java:139-143 | the monitor keeps the file, attributes and poll period, and starts idle with no listeners |
| FileMonitoring.FileMonitor.WithDefaults | source/com/mucommander/file/util/FileMonitor.java:83-85 | the default attributes (date only) and the default poll period (10000 ms) |
| FileMonitoring.FileMonitor.WithAttributes | source/com/mucommander/file/util/FileMonitor.java:96-98 | the given attributes with the default poll period |
| FileMonitoring.FileMonitor.WithPollPeriod | source/com/mucommander/file/util/FileMonitor.java:109-111 | the given poll period with the default attributes |
| FileMonitoring.FileMonitor.AddFileChangeListener | source/com/mucommander/file/util/FileMonitor.java:154-156 | the listener set gains the listener (once) and keeps all others |
| FileMonitoring.FileMonitor.RemoveFileChangeListener | source/com/mucommander/file/util/FileMonitor.java:163-165 | the listener is absent afterwards and all others stay |
| FileMonitoring.FileMonitor.StartMonitoring | source/com/mucommander/file/util/FileMonitor.java:181-188 | after a start, monitoring is on; starting while running changes nothing; a fresh start records the baseline |
| FileMonitoring.FileMonitor.StopMonitoring | source/com/mucommander/file/util/FileMonitor.java:193-195 | after a stop, monitoring is off; nothing else changes (so a stop while idle is a no-op) |
| FileMonitoring.FileMonitor.IsMonitoring | source/com/mucommander/file/util/FileMonitor.java:200-202 | true exactly while monitoring is on: after a start and before the next stop |
| FileMonitoring.FileMonitor.FireFileChangeEvent | source/com/mucommander/file/util/FileMonitor.java:211-217 | every registered listener is called exactly once, with the monitored file and the changed set |
| FileMonitoring.FileMonitor.CheckDate | source/com/mucommander/file/util/FileMonitor.java:245-250 | the date check is one step of the cycle (no stop check before it) |
| FileMonitoring.FileMonitor.CheckSize | source/com/mucommander/file/util/FileMonitor.java:252-257 | the size check is one step, made only while monitoring is on |
| FileMonitoring.FileMonitor.CheckPermissions | source/com/mucommander/file/util/FileMonitor.java:259-264 | the permissions check is one step, made only while monitoring is on |
| FileMonitoring.FileMonitor.CheckIsDirectory | source/com/mucommander/file/util/FileMonitor.java:266-271 | the is-directory check is one step, made only while monitoring is on |
| FileMonitoring.FileMonitor.CheckExists | source/com/mucommander/file/util/FileMonitor.java:273-278 | the exists check is one step, made only while monitoring is on |
| FileMonitoring.FileMonitor.Cycle | source/com/mucommander/file/util/FileMonitor.java:241-290 | one loop iteration yields the cycle's changed set and recorded values; it fires one event iff the set is non-empty, sleeps max(pollPeriod - elapsed, 0), and keeps running iff no stop was seen; unmonitored values stay blank |
| NfsUrl.Property | source/com/mucommander/file/impl/nfs/NFSFile.java:108-113 | a property is present exactly when the URL sets it, with its value |
| NfsUrl.NfsVersion | source/com/mucommander/file/impl/nfs/NFSFile.java:108-110 | the version is the `version` property verbatim, or `v2` when it is absent |
| NfsUrl.NatText | source/com/mucommander/file/impl/nfs/NFSFile.java:118 | the decimal text of a natural number is a non-empty string of digits |
| NfsUrl.NatTextIsCanonical | source/com/mucommander/file/impl/nfs/NFSFile.java:118 | that text is canonical (no leading zero except for "0") and starts with '0' only for 0 |
| NfsUrl.IntText | source/com/mucommander/file/impl/nfs/NFSFile.java:118 | the text of an int, as `""+port` writes it, is non-empty and starts with '-' exactly for negative numbers |
| NfsUrl.IntTextIsCanonical | source/com/mucommander/file/impl/nfs/NFSFile.java:118 | the text of an int is canonical: a natural number's text, or '-' and a positive number's text |
| NfsUrl.TransportFlag | source/com/mucommander/file/impl/nfs/NFSFile.java:113-114 | `t` iff the `protocol` property is `TCP`, `u` iff it is `UDP`, empty otherwise (absent, `Auto`, anything else) |
| NfsUrl.NatTextRoundTrip | source/com/mucommander/file/impl/nfs/NFSFile.java:118 | reading back the decimal text of a natural number gives the number |
| NfsUrl.IntTextRoundTrip | source/com/mucommander/file/impl/nfs/NFSFile.java:118 | reading back the decimal text of any port number gives that number |
| NfsUrl.CanonicalNatIsNatText | source/com/mucommander/file/impl/nfs/NFSFile.java:118 | any canonical decimal text is the text `NatText` writes for the value it reads as, so the text of a number is unique |
| NfsUrl.CanonicalIntIsIntText | source/com/mucommander/file/impl/nfs/NFSFile.java:118 | any canonical int text is the text `IntText` writes for the value it reads as |
| NfsUrl.PortString | source/com/mucommander/file/impl/nfs/NFSFile.java:117-118 | the port text is empty iff the port is -1 or 2049; otherwise it is canonical decimal text that reads back as the port, hence (by `CanonicalIntIsIntText`) exactly Java's decimal text of the port |
| NfsUrl.NativeUrlShape | source/com/mucommander/file/impl/nfs/NFSFile.java:121 | the native URL starts with `nfs://` + host + `:` and ends with `m/` + path; `NativeUrlRoundTrip` shows what lies between |
| NfsUrl.NativeUrlRoundTrip | source/com/mucommander/file/impl/nfs/NFSFile.java:108-121 | the native URL `nfs://host:<port><version><flag>m/<path>` determines the host, the explicit port, the version, the flag and the path |
| NfsUrl.StripTrailingSeparator | source/com/mucommander/file/impl/nfs/NFSFile.java:124-126 | the absolute path is the URL text with exactly one trailing `/` removed if present, and otherwise the text itself |
| NfsUrl.StripRemovesOneSeparator | source/com/mucommander/file/impl/nfs/NFSFile.java:126 | only one separator is removed: text ending in `//` keeps one |
| NfsUrl.ChildPath | source/com/mucommander/file/impl/nfs/NFSFile.java:292-299 | a child's path is the parent path with `/` appended only if it is missing, then the name |
| NfsUrl.ChildPathJoinsStripped | source/com/mucommander/file/impl/nfs/NFSFile.java:292-299 | a child path is the parent path without its trailing separator, one `/`, and the name |
| NfsUrl.ChildPathAddsAtMostOneSeparator | source/com/mucommander/file/impl/nfs/NFSFile.java:292-299 | a child path starts with the parent path, ends with the name, has a `/` just before the name, and adds at most one character besides the name |
| NfsFiles.CacheOf | source/com/mucommander/file/impl/nfs/NFSFile.java:150-165 | a looked-up or set parent (possibly none) fills the cache and is what the cache then returns |
| NfsFiles.MoveRouteOf | source/com/mucommander/file/impl/nfs/NFSFile.java:317-331 | non-NFS destinations go to the generic move as they are; NFS archives are unwrapped first; a native rename happens iff the (unwrapped) destination is an NFS file, and otherwise the generic move receives the unwrapped file |
| NfsFiles.NfsFile.constructor | source/com/mucommander/file/impl/nfs/NFSFile.java:81-127 | the native URL is built from the file URL, the absolute path from the URL text with one trailing `/` removed, and the parent is not yet looked up |
| NfsFiles.NfsFile.GetParent | source/com/mucommander/file/impl/nfs/NFSFile.java:150-160 | the parent is looked up at most once; later calls return the cached value, including a cached none; no lookup is made at the root |
| NfsFiles.NfsFile.SetParent | source/com/mucommander/file/impl/nfs/NFSFile.java:162-165 | the cache holds the given parent, so later `GetParent` calls return it without a lookup |
| NfsFiles.NfsFile.Mkdir | source/com/mucommander/file/impl/nfs/NFSFile.java:214-217 | the directory created is `absPath + "/" + name`; an IOException iff the native mkdir fails |
| NfsFiles.NfsFile.Delete | source/com/mucommander/file/impl/nfs/NFSFile.java:231-236 | an IOException iff the native delete fails |
| NfsFiles.NfsFile.NewChild | source/com/mucommander/file/impl/nfs/NFSFile.java:292-306 | one loop step of `ls`: a new child built from the name under the separator-terminated base path, with this file set as its parent |
| NfsFiles.NfsFile.Ls | source/com/mucommander/file/impl/nfs/NFSFile.java:280-310 | an IOException iff there is no listing; otherwise one new child per surviving name, in order (`ListedChild`): this URL with the child path, its native URL and absolute path, this file as cached parent with no lookup made (so the child's `GetParent` answers it without a lookup), archive-wrapped when the factory says so |
| NfsFiles.NfsFile.MoveTo | source/com/mucommander/file/impl/nfs/NFSFile.java:317-335 | routed destinations get the generic move's outcome; an NFS destination gets the native rename's boolean, never an exception |
| NfsFiles.NfsFile.GetPermission | source/com/mucommander/file/impl/nfs/NFSFile.java:171-181 | user read is `canRead`, user write is `canWrite`, and nothing is reported where it cannot be read |
| NfsFiles.NfsFile.CanGetPermission | source/com/mucommander/file/impl/nfs/NFSFile.java:188-191 | a permission can be read only for the user and only for read or write, and only when the get mask has its bit |
| NfsFiles.NfsFile.SetPermission | source/com/mucommander/file/impl/nfs/NFSFile.java:183-186 | setting a permission always returns false |
| NfsFiles.NfsFile.CanSetPermission | source/com/mucommander/file/impl/nfs/NFSFile.java:193-196 | no permission can be set |
| NfsFiles.NfsFile.MasksMatchCapabilities | source/com/mucommander/file/impl/nfs/NFSFile.java:341-350 | the get mask 384 (octal 600) has exactly the bits `canGetPermission` (lines 188-191) accepts, user read and write; the set mask 0 has none, as `canSetPermission` says |
| NfsFiles.NfsFile.ChangeDate | source/com/mucommander/file/impl/nfs/NFSFile.java:141-144 | the date cannot be changed |
| NfsFiles.NfsFile.IsSymlink | source/com/mucommander/file/impl/nfs/NFSFile.java:205-208 | a file is never a symbolic link |
| NfsFiles.NfsFile.GetFreeSpace | source/com/mucommander/file/impl/nfs/NFSFile.java:241-244 | free space is not available: -1 |
| NfsFiles.NfsFile.GetTotalSpace | source/com/mucommander/file/impl/nfs/NFSFile.java:249-252 | total space is not available: -1 |
| NfsFiles.NfsFile.CanRunProcess | source/com/mucommander/file/impl/nfs/NFSFile.java:264-266 | processes cannot be run |
| NfsFiles.NfsFile.RunProcess | source/com/mucommander/file/impl/nfs/NFSFile.java:271-273 | running a process always fails with an IOException |
| NfsFiles.UnsupportedOperationsAgree | source/com/mucommander/file/impl/nfs/NFSFile.java:141-273 | the unsupported operations agree with the capability queries: no process, no permission change, no reported permission that cannot be read, no date change, no space figures |

## Left out

- Threads, `Thread.sleep`, `System.currentTimeMillis` and `InterruptedException`: the loop's elapsed time and the point where a stop is seen are inputs of `Cycle`, and the sleep is returned as a number.
- The race in which `stopMonitoring` runs before the new thread has read `monitorThread`: the thread then compares against null and keeps polling while `isMonitoring()` is false. This is concurrency, which the `running` flag does not express.
- A restart before the old thread has seen its stop: in the source, two threads can then briefly poll at once. The model has a single loop.
- The weak references of the listener map: listeners are a plain set with explicit removal, and their iteration order is unspecified (`FireFileChangeEvent` picks any order).
- Java `long` and `int` overflow: dates, sizes, permissions, poll period and elapsed time are unbounded integers, so `pollPeriod - elapsed` cannot wrap.
- `FileMonitor.main`: a console test program.
- `NFSRandomAccessInputStream`, `getInputStream`, `getOutputStream`, `getDate`, `getSize`, `exists`, `isDirectory` and `getUnderlyingFileObject`: plain delegation to Yanfs, whose behaviour is not part of this model.
- `ls()` without a filter is `Ls` with no filter.
- The Yanfs library (`list`, `canRead`, `canWrite`, `mkdir`, `delete`, `renameTo`), `FileFactory.getFile`, `FileFactory.wrapArchive`, `FileURL.getParent`, `FileURL.toString`, `FilenameFilter.filter` and the generic `AbstractFile.moveTo` are not part of this model. They enter only as oracle parameters. The model does not say how the URL text is formed, which names a filter keeps, or which files count as archives.
- The `XFile` object built for `mkdir` and the one held by the file are represented by their URL strings.
- The URL parser (`ParseNativeUrl`) reads back versions `v2` and `v3` only, and servers whose names contain no colon. `NativeUrlRoundTrip` assumes both, because another verbatim version string, or a colon in the host, can make two native URLs equal.
- `EditCredentialsAction`: a user-interface action with no logic of its own.
