/**
 * A file on an NFS server, reached through the Yanfs client library. The library's answers (the
 * directory listing, `canRead`, `canWrite`, `mkdir`, `delete`, `renameTo`) are oracle inputs of the
 * operations; so are the file factory's parent resolution and archive detection, and the text of a
 * file URL.
 */
module NfsFiles {
  import opened Wrappers
  import opened NfsUrl

  /** The exceptions of the file API. */
  datatype Error = IOException | FileTransferException

  /** The protocol name of NFS file URLs. */
  const NFS: string := "nfs"

  /**
   * A file of the virtual file system as an NFS file deals with it: another NFS file, an archive file
   * that proxies some file, or a file of any other kind, known by its URL.
   */
  datatype FileRef = NfsRef(file: NfsFile) | ArchiveRef(archiveUrl: FileUrl, proxied: FileRef) | OtherRef(otherUrl: FileUrl)

  function UrlOf(f: FileRef): FileUrl
  {
    match f
    case NfsRef(n) => n.url
    case ArchiveRef(u, _) => u
    case OtherRef(u) => u
  }

  /** The cached parent of a file: not looked up yet, a parent, or looked up and found to be none. */
  datatype ParentCache = Unresolved | Present(parent: FileRef) | Absent

  function CachedParent(c: ParentCache): Option<FileRef>
  {
    match c
    case Present(p) => Some(p)
    case _ => None
  }

  /** The cache entry for a parent that may be null. */
  function CacheOf(p: Option<FileRef>): (c: ParentCache)
    ensures c != Unresolved && CachedParent(c) == p
  {
    match p
    case Some(f) => Present(f)
    case None => Absent
  }

  /** The files a listing yields: all names, or those the filename filter keeps. */
  function Surviving(names: seq<string>, filter: Option<seq<string> -> seq<string>>): seq<string>
  {
    match filter
    case None => names
    case Some(keep) => keep(names)
  }

  /** Where `moveTo` sends a destination: the generic copy-and-delete, or a native rename. */
  datatype MoveRoute = Fallback(dest: FileRef) | Rename(target: NfsFile)

  /**
   * A destination that is not an NFS URL goes to the generic implementation as it is; an NFS
   * destination is first unwrapped if it is an archive, and is renamed onto if that gives an NFS file,
   * otherwise the unwrapped file goes to the generic implementation.
   */
  function MoveRouteOf(dest: FileRef): (route: MoveRoute)
    ensures UrlOf(dest).protocol != NFS ==> route == Fallback(dest)
    ensures route.Rename? <==> UrlOf(dest).protocol == NFS && (dest.NfsRef? || (dest.ArchiveRef? && dest.proxied.NfsRef?))
    ensures route.Rename? && dest.NfsRef? ==> route.target == dest.file
    ensures route.Rename? && dest.ArchiveRef? ==> route.target == dest.proxied.file
    ensures UrlOf(dest).protocol == NFS && dest.ArchiveRef? && !dest.proxied.NfsRef? ==> route == Fallback(dest.proxied)
    ensures UrlOf(dest).protocol == NFS && dest.OtherRef? ==> route == Fallback(dest)
  {
    if UrlOf(dest).protocol != NFS then Fallback(dest)
    else
      var d := if dest.ArchiveRef? then dest.proxied else dest;
      if !d.NfsRef? then Fallback(d) else Rename(d.file)
  }

  /** The user, group and other access classes, and the read, write and execute permissions. */
  const USER_ACCESS: int := 2
  const GROUP_ACCESS: int := 1
  const OTHER_ACCESS: int := 0
  const READ_PERMISSION: int := 4
  const WRITE_PERMISSION: int := 2
  const EXECUTE_PERMISSION: int := 1

  /** The permissions that can be read: rw------- (octal 600). */
  const PERMISSION_GET_MASK: int := 384
  /** The permissions that can be changed: none. */
  const PERMISSION_SET_MASK: int := 0

  /** Whether a permission mask has the bit of a permission for an access class (3 bits per class). */
  predicate MaskAllows(mask: int, access: int, permission: int)
    requires access == USER_ACCESS || access == GROUP_ACCESS || access == OTHER_ACCESS
    requires permission == READ_PERMISSION || permission == WRITE_PERMISSION || permission == EXECUTE_PERMISSION
  {
    var shift := if access == USER_ACCESS then 64 else if access == GROUP_ACCESS then 8 else 1;
    (mask / (permission * shift)) % 2 == 1
  }

  class NfsFile {
    const url: FileUrl
    /** The URL of the underlying Yanfs file. */
    const nativeUrl: string
    /** The URL's text with one trailing separator removed. */
    const absPath: string
    var parent: ParentCache
    /** How many times the parent has been looked up through the file factory. */
    ghost var lookups: nat

    /** The file factory is asked for the parent at most once, and only once the cache is filled. */
    ghost predicate Valid()
      reads this
    {
      lookups <= 1 && (parent == Unresolved ==> lookups == 0)
    }

    /** `urlText` is the text of `url`, from which the absolute path is taken. */
    constructor (url: FileUrl, urlText: string)
      ensures this.url == url && nativeUrl == NativeUrl(url) && absPath == StripTrailingSeparator(urlText)
      ensures parent == Unresolved && lookups == 0 && Valid()
    {
      this.url := url;
      nativeUrl := NativeUrl(url);
      absPath := StripTrailingSeparator(urlText);
      parent := Unresolved;
      lookups := 0;
    }

    /**
     * The parent folder, looked up on the first call only: `parentUrl` is the parent of this file's
     * URL (none at the root) and `getFile` the file factory, which may find no file.
     */
    method GetParent(parentUrl: Option<FileUrl>, getFile: FileUrl -> Option<FileRef>) returns (p: Option<FileRef>)
      requires Valid()
      modifies this`parent, this`lookups
      ensures Valid()
      ensures p == CachedParent(parent) && parent != Unresolved
      ensures old(parent) != Unresolved ==> parent == old(parent) && lookups == old(lookups)
      ensures old(parent) == Unresolved && parentUrl.None? ==> parent == Absent && lookups == 0
      ensures old(parent) == Unresolved && parentUrl.Some? ==> parent == CacheOf(getFile(parentUrl.value)) && lookups == 1
    {
      if parent == Unresolved {
        var found: Option<FileRef> := None;
        if parentUrl.Some? {
          found := getFile(parentUrl.value);
          lookups := lookups + 1;
        }
        parent := CacheOf(found);
      }
      p := CachedParent(parent);
    }

    /** Caches the given parent (possibly none); no lookup will follow. */
    method SetParent(p: Option<FileRef>)
      requires Valid()
      modifies this`parent
      ensures Valid()
      ensures parent == CacheOf(p)
    {
      parent := CacheOf(p);
    }

    /** Creates the directory `name` in this folder; `nativeMkdir` is the library's answer for a path. */
    method Mkdir(name: string, nativeMkdir: string -> bool) returns (r: Option<Error>)
      ensures r.None? <==> nativeMkdir(absPath + SEPARATOR + name)
      ensures r.Some? ==> r.value == IOException
    {
      if !nativeMkdir(absPath + SEPARATOR + name) {
        return Some(IOException);
      }
      return None;
    }

    /** Deletes the file; `deleted` is the library's answer. */
    method Delete(deleted: bool) returns (r: Option<Error>)
      ensures r.None? <==> deleted
      ensures r.Some? ==> r.value == IOException
    {
      if !deleted {
        return Some(IOException);
      }
      return None;
    }

    /**
     * What `ls` makes of the name `name`: a file with this file's URL and the child path, the native URL
     * and absolute path of that URL, this file as its cached parent and no lookup made, listed as `ref`,
     * which wraps it as an archive when `isArchive` says so.
     */
    ghost predicate ListedChild(child: NfsFile, name: string, ref: FileRef, urlText: FileUrl -> string, isArchive: FileUrl -> bool)
      reads child
    {
      && child.Valid() && child.lookups == 0
      && child.url == url.(path := ChildPath(url.path, name))
      && child.nativeUrl == NativeUrl(child.url)
      && child.absPath == StripTrailingSeparator(urlText(child.url))
      && child.parent == Present(NfsRef(this))
      && ref == (if isArchive(child.url) then ArchiveRef(child.url, NfsRef(child)) else NfsRef(child))
    }

    /** One step of `ls`: the child named `name`, under `baseUrlPath`, this file's path ending in a separator. */
    method NewChild(name: string, baseUrlPath: string, urlText: FileUrl -> string, isArchive: FileUrl -> bool)
      returns (child: NfsFile, ref: FileRef)
      requires baseUrlPath == StripTrailingSeparator(url.path) + SEPARATOR
      ensures fresh(child) && ListedChild(child, name, ref, urlText, isArchive)
    {
      ChildPathJoinsStripped(url.path, name);
      var childUrl := url.(path := baseUrlPath + name);
      child := new NfsFile(childUrl, urlText(childUrl));
      child.SetParent(Some(NfsRef(this)));
      ref := if isArchive(childUrl) then ArchiveRef(childUrl, NfsRef(child)) else NfsRef(child);
    }

    /**
     * The children of this folder. `listing` is the library's list of names (none if it could not
     * list), `filter` the optional filename filter, `urlText` the text of a URL, and `isArchive` the
     * file factory's test for the files it wraps in an archive file. Each child gets this file's URL
     * with the child path, and this file as its cached parent.
     */
    method Ls(listing: Option<seq<string>>, filter: Option<seq<string> -> seq<string>>,
              urlText: FileUrl -> string, isArchive: FileUrl -> bool)
      returns (r: Result<array<FileRef>, Error>, ghost kids: seq<NfsFile>)
      ensures r.Failure? <==> listing.None?
      ensures r.Failure? ==> r.error == IOException
      ensures r.Success? ==>
        var names := Surviving(listing.value, filter);
        && fresh(r.value) && r.value.Length == |names| == |kids|
        && forall i :: 0 <= i < |names| ==> fresh(kids[i]) && ListedChild(kids[i], names[i], r.value[i], urlText, isArchive)
    {
      if listing.None? {
        return Failure(IOException), [];
      }
      var names := listing.value;
      if filter.Some? {
        names := filter.value(names);
      }
      var children := new FileRef[|names|](_ => NfsRef(this));
      var baseUrlPath := url.path;
      if !(|baseUrlPath| > 0 && baseUrlPath[|baseUrlPath| - 1] == '/') {
        baseUrlPath := baseUrlPath + SEPARATOR;
      }
      assert baseUrlPath == StripTrailingSeparator(url.path) + SEPARATOR;
      kids := [];
      var i := 0;
      while i < |names|
        invariant 0 <= i <= |names| && |kids| == i
        invariant forall k :: 0 <= k < i ==> fresh(kids[k]) && ListedChild(kids[k], names[k], children[k], urlText, isArchive)
      {
        var child, ref := NewChild(names[i], baseUrlPath, urlText, isArchive);
        children[i] := ref;
        kids := kids + [child];
        forall k | 0 <= k < i + 1
          ensures fresh(kids[k]) && ListedChild(kids[k], names[k], children[k], urlText, isArchive)
        {
          if k == i {
            assert kids[k] == child && children[k] == ref;
          }
        }
        i := i + 1;
      }
      return Success(children), kids;
    }

    /**
     * Moves this file to `dest`: by the generic implementation `genericMoveTo`, or by the library's
     * rename (`renameTo`, on native URLs) when the destination is an NFS file, whose answer is returned
     * as it is.
     */
    function MoveTo(dest: FileRef, genericMoveTo: FileRef -> Result<bool, Error>, renameTo: (string, string) -> bool): (r: Result<bool, Error>)
      ensures MoveRouteOf(dest).Fallback? ==> r == genericMoveTo(MoveRouteOf(dest).dest)
      ensures MoveRouteOf(dest).Rename? ==> r == Success(renameTo(nativeUrl, MoveRouteOf(dest).target.nativeUrl))
    {
      match MoveRouteOf(dest)
      case Fallback(d) => genericMoveTo(d)
      case Rename(target) => Success(renameTo(nativeUrl, target.nativeUrl))
    }

    /** Whether the given access class has the given permission; `canRead`, `canWrite` are the library's answers. */
    function GetPermission(access: int, permission: int, canRead: bool, canWrite: bool): (r: bool)
      ensures r ==> CanGetPermission(access, permission)
      ensures access == USER_ACCESS && permission == READ_PERMISSION ==> r == canRead
      ensures access == USER_ACCESS && permission == WRITE_PERMISSION ==> r == canWrite
    {
      if access != USER_ACCESS then false
      else if permission == READ_PERMISSION then canRead
      else if permission == WRITE_PERMISSION then canWrite
      else false
    }

    /** The permissions that can be read: read and write, for the user. */
    function CanGetPermission(access: int, permission: int): (r: bool)
      ensures r ==> (access == USER_ACCESS && (permission == READ_PERMISSION || permission == WRITE_PERMISSION)
                     && MaskAllows(PERMISSION_GET_MASK, access, permission))
    {
      access == USER_ACCESS && (permission == READ_PERMISSION || permission == WRITE_PERMISSION)
    }

    /** No permission can be changed. */
    function SetPermission(access: int, permission: int, enabled: bool): (r: bool)
      ensures !r
    {
      false
    }

    function CanSetPermission(access: int, permission: int): (r: bool)
      ensures !r
    {
      false
    }

    /** The permissions that can be read are exactly those of the get mask, and those that can be changed those of the set mask. */
    lemma MasksMatchCapabilities(access: int, permission: int)
      requires access == USER_ACCESS || access == GROUP_ACCESS || access == OTHER_ACCESS
      requires permission == READ_PERMISSION || permission == WRITE_PERMISSION || permission == EXECUTE_PERMISSION
      ensures MaskAllows(PERMISSION_GET_MASK, access, permission) <==> CanGetPermission(access, permission)
      ensures MaskAllows(PERMISSION_SET_MASK, access, permission) <==> CanSetPermission(access, permission)
    {
    }

    /** The date cannot be changed. */
    function ChangeDate(lastModified: int): (r: bool)
      ensures !r
    {
      false
    }

    /** Symbolic links are not detected. */
    function IsSymlink(): (r: bool)
      ensures !r
    {
      false
    }

    /** Not available: -1. */
    function GetFreeSpace(): (r: int)
      ensures r == -1
    {
      -1
    }

    /** Not available: -1. */
    function GetTotalSpace(): (r: int)
      ensures r == -1
    {
      -1
    }

    function CanRunProcess(): (r: bool)
      ensures !r
    {
      false
    }

    /** Always fails. */
    function RunProcess(tokens: seq<string>): (r: Result<(), Error>)
      ensures r == Failure(IOException)
    {
      Failure(IOException)
    }
  }

  /**
   * An NFS file answers every operation it does not support consistently with its capability queries:
   * processes cannot be run and running one fails, no permission can be changed and changing one does
   * nothing, a permission is reported only where it can be read, and space figures are unavailable.
   */
  lemma UnsupportedOperationsAgree(f: NfsFile, tokens: seq<string>, access: int, permission: int, enabled: bool, canRead: bool, canWrite: bool, date: int)
    ensures !f.CanRunProcess() && f.RunProcess(tokens).Failure?
    ensures !f.CanSetPermission(access, permission) && !f.SetPermission(access, permission, enabled)
    ensures f.GetPermission(access, permission, canRead, canWrite) ==> f.CanGetPermission(access, permission)
    ensures !f.ChangeDate(date) && !f.IsSymlink()
    ensures f.GetFreeSpace() < 0 && f.GetTotalSpace() < 0
  {
  }

  /**
   * A folder whose parent was set is never looked up; a folder whose parent was not set looks it up
   * once, and the second call returns the cached answer, even when there is no parent.
   */
  method ParentCacheScenario(url: FileUrl, parentUrl: FileUrl, getFile: FileUrl -> Option<FileRef>)
  {
    var folder := new NfsFile(url, "nfs://garfield/stuff/");
    var child := new NfsFile(url.(path := "/stuff/a"), "nfs://garfield/stuff/a");
    child.SetParent(Some(NfsRef(folder)));
    var p := child.GetParent(Some(parentUrl), getFile);
    assert p == Some(NfsRef(folder)) && child.lookups == 0;

    var first := folder.GetParent(Some(parentUrl), getFile);
    var second := folder.GetParent(Some(parentUrl), _ => None);
    assert first == second == getFile(parentUrl) && folder.lookups == 1;
    assert folder.absPath == "nfs://garfield/stuff";

    var root := new NfsFile(url.(path := "/"), "nfs://garfield/");
    var none := root.GetParent(None, getFile);
    var again := root.GetParent(Some(parentUrl), getFile);
    assert none == again == None && root.lookups == 0;
  }

  /** A child listed by `ls` answers this folder as its parent without asking the file factory. */
  method ListedChildScenario(folder: NfsFile, name: string, parentUrl: FileUrl, getFile: FileUrl -> Option<FileRef>,
                             urlText: FileUrl -> string)
  {
    var r, kids := folder.Ls(Some([name]), None, urlText, _ => false);
    assert r.value[0] == NfsRef(kids[0]);
    var child := r.value[0].file;
    var p := child.GetParent(Some(parentUrl), getFile);
    assert p == Some(NfsRef(folder)) && child.lookups == 0;
  }
}
