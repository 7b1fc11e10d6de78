/**
 * The string side of the NFS file: the URL handed to the Yanfs client library, the absolute path,
 * and the paths of children and new directories.
 *
 * The native URL has the shape `nfs://host:port/path` of section 2 of RFC 2054, with the Yanfs
 * extension that connection flags follow the port: the NFS version (`v2`, `v3`), an optional
 * transport flag (`t` forces TCP, `u` forces UDP) and `m` (use the Mount protocol), after which the
 * path is given with an extra leading slash.
 */
module NfsUrl {
  import opened Wrappers

  const SEPARATOR: string := "/"

  const NFS_VERSION_PROPERTY_NAME: string := "version"
  const NFS_VERSION_2: string := "v2"
  const NFS_VERSION_3: string := "v3"
  const DEFAULT_NFS_VERSION: string := NFS_VERSION_2

  const NFS_PROTOCOL_PROPERTY_NAME: string := "protocol"
  const NFS_PROTOCOL_AUTO: string := "Auto"
  const NFS_PROTOCOL_TCP: string := "TCP"
  const NFS_PROTOCOL_UDP: string := "UDP"
  const DEFAULT_NFS_PROTOCOL: string := NFS_PROTOCOL_AUTO

  /** The port a native URL leaves implicit. */
  const NFS_DEFAULT_PORT: int := 2049
  /** The port of a URL that names none. */
  const NO_PORT: int := -1

  /** The parts of a file URL the NFS file reads; `properties` are the URL's connection properties. */
  datatype FileUrl = FileUrl(protocol: string, host: string, port: int, path: string, properties: map<string, string>)

  /** A connection property of the URL, if it is set. */
  function Property(url: FileUrl, name: string): (r: Option<string>)
    ensures r.Some? <==> name in url.properties
    ensures r.Some? ==> r.value == url.properties[name]
  {
    if name in url.properties then Some(url.properties[name]) else None
  }

  /** The NFS version: the `version` property taken as it is, or `v2` when it is not set. */
  function NfsVersion(url: FileUrl): (v: string)
    ensures NFS_VERSION_PROPERTY_NAME in url.properties ==> v == url.properties[NFS_VERSION_PROPERTY_NAME]
    ensures NFS_VERSION_PROPERTY_NAME !in url.properties ==> v == NFS_VERSION_2
  {
    match Property(url, NFS_VERSION_PROPERTY_NAME)
    case Some(v) => v
    case None => DEFAULT_NFS_VERSION
  }

  /** The transport flag for the value of the `protocol` property. */
  function TransportFlag(protocol: Option<string>): (flag: string)
    ensures flag == "t" <==> protocol == Some(NFS_PROTOCOL_TCP)
    ensures flag == "u" <==> protocol == Some(NFS_PROTOCOL_UDP)
    ensures flag == "" <==> protocol != Some(NFS_PROTOCOL_TCP) && protocol != Some(NFS_PROTOCOL_UDP)
  {
    if protocol == Some(NFS_PROTOCOL_TCP) then "t"
    else if protocol == Some(NFS_PROTOCOL_UDP) then "u"
    else ""
  }

  /** The decimal digit of a value below ten. */
  function Digit(d: nat): char
    requires d < 10
  {
    "0123456789"[d]
  }

  predicate IsDigit(c: char)
  {
    '0' <= c <= '9'
  }

  /** Non-empty decimal digits without a leading zero, except for the text "0" itself. */
  predicate CanonicalNat(s: string)
  {
    s != [] && (forall k :: 0 <= k < |s| ==> IsDigit(s[k])) && (s[0] == '0' ==> s == "0")
  }

  /** Canonical decimal text of an int: that of a natural number, or a minus sign and that of a positive one. */
  predicate CanonicalInt(s: string)
  {
    CanonicalNat(s) || (|s| > 1 && s[0] == '-' && CanonicalNat(s[1..]) && s[1] != '0')
  }

  /** The decimal text of a natural number, without leading zeros. */
  function NatText(n: nat): (s: string)
    ensures s != [] && forall k :: 0 <= k < |s| ==> IsDigit(s[k])
  {
    if n < 10 then [Digit(n)] else NatText(n / 10) + [Digit(n % 10)]
  }

  /** The text of a natural number is canonical, and starts with a zero only for zero. */
  lemma {:induction false} NatTextIsCanonical(n: nat)
    ensures CanonicalNat(NatText(n))
    ensures NatText(n)[0] == '0' <==> n == 0
  {
    if n >= 10 {
      NatTextIsCanonical(n / 10);
      assert NatText(n)[0] == NatText(n / 10)[0];
    }
  }

  /** The decimal text of an int, as Java's string concatenation writes it. */
  function IntText(n: int): (s: string)
    ensures s != [] && (s[0] == '-' <==> n < 0)
  {
    if n < 0 then "-" + NatText(-n) else NatText(n)
  }

  /** The text of an int is canonical. */
  lemma IntTextIsCanonical(n: int)
    ensures CanonicalInt(IntText(n))
  {
    if n < 0 {
      NatTextIsCanonical(-n);
      assert IntText(n)[1..] == NatText(-n);
    } else {
      NatTextIsCanonical(n);
    }
  }

  /** The value of a non-empty string of decimal digits. */
  function ParseNat(s: string): Option<nat>
    decreases |s|
  {
    if s == [] || !IsDigit(s[|s| - 1]) then None
    else
      var d := (s[|s| - 1] as int - '0' as int) as nat;
      if |s| == 1 then Some(d)
      else match ParseNat(s[..|s| - 1])
        case None => None
        case Some(v) => Some(v * 10 + d)
  }

  /** The value of decimal text with an optional leading minus sign. */
  function ParseInt(s: string): Option<int>
  {
    if |s| > 0 && s[0] == '-' then
      match ParseNat(s[1..])
      case None => None
      case Some(v) => Some(-(v as int))
    else
      match ParseNat(s)
      case None => None
      case Some(v) => Some(v)
  }

  lemma DigitValue(d: nat)
    requires d < 10
    ensures IsDigit(Digit(d)) && (Digit(d) as int - '0' as int) == d
  {
  }

  /** Reading back the decimal text of a natural number gives the number. */
  lemma {:induction false} NatTextRoundTrip(n: nat)
    ensures ParseNat(NatText(n)) == Some(n)
  {
    if n < 10 {
      DigitValue(n);
    } else {
      var s := NatText(n);
      DigitValue(n % 10);
      assert s[..|s| - 1] == NatText(n / 10);
      NatTextRoundTrip(n / 10);
    }
  }

  /** Reading back the decimal text of any int gives the int. */
  lemma IntTextRoundTrip(n: int)
    ensures ParseInt(IntText(n)) == Some(n)
  {
    if n < 0 {
      NatTextRoundTrip(-n);
      SignedRead(NatText(-n), -n);
    } else {
      NatTextRoundTrip(n);
      UnsignedRead(NatText(n), n);
    }
  }

  lemma SignedRead(t: string, v: nat)
    requires ParseNat(t) == Some(v)
    ensures ParseInt("-" + t) == Some(-(v as int))
  {
    assert ("-" + t)[1..] == t;
  }

  lemma UnsignedRead(t: string, v: nat)
    requires ParseNat(t) == Some(v) && t[0] != '-'
    ensures ParseInt(t) == Some(v)
  {
  }

  /** Canonical decimal text is the only canonical text of its value: the one `NatText` writes. */
  lemma {:induction false} CanonicalNatIsNatText(s: string, n: nat)
    requires CanonicalNat(s) && ParseNat(s) == Some(n)
    ensures s == NatText(n)
    decreases |s|
  {
    var d := (s[|s| - 1] as int - '0' as int) as nat;
    DigitValue(d);
    assert Digit(d) == s[|s| - 1];
    if |s| > 1 {
      var p := s[..|s| - 1];
      assert CanonicalNat(p) by {
        assert p[0] == s[0];
      }
      var v :| ParseNat(p) == Some(v);
      assert n == v * 10 + d;
      CanonicalNatIsNatText(p, v);
      assert v != 0 by {
        assert p[0] == s[0] != '0';
      }
      assert n / 10 == v && n % 10 == d;
      assert s == p + [s[|s| - 1]];
    }
  }

  /** Canonical decimal text of an int is the text `IntText` writes for the value it reads as. */
  lemma CanonicalIntIsIntText(s: string, n: int)
    requires CanonicalInt(s) && ParseInt(s) == Some(n)
    ensures s == IntText(n)
  {
    if s[0] == '-' {
      var t := s[1..];
      var v :| ParseNat(t) == Some(v);
      assert n == -(v as int);
      CanonicalNatIsNatText(t, v);
      assert v != 0 by {
        assert NatText(0) == "0";
      }
      assert IntText(n) == "-" + t;
      assert s == "-" + t;
    } else {
      var v :| ParseNat(s) == Some(v);
      CanonicalNatIsNatText(s, v);
    }
  }

  /** The port part of the native URL: empty for no port and for the NFS port, else its decimal text. */
  function PortString(port: int): (s: string)
    ensures s == "" <==> port == NO_PORT || port == NFS_DEFAULT_PORT
    ensures s != "" ==> CanonicalInt(s) && ParseInt(s) == Some(port)
  {
    if port == NO_PORT || port == NFS_DEFAULT_PORT then ""
    else
      IntTextRoundTrip(port);
      IntTextIsCanonical(port);
      IntText(port)
  }

  /** The URL the Yanfs client is given for a file URL. */
  function NativeUrl(url: FileUrl): string
  {
    "nfs://" + url.host + ":" + PortString(url.port) + NfsVersion(url)
    + TransportFlag(Property(url, NFS_PROTOCOL_PROPERTY_NAME)) + "m" + "/" + url.path
  }

  /** The native URL names the server before its first colon and ends with the Mount flag and the path. */
  lemma NativeUrlShape(url: FileUrl)
    ensures "nfs://" + url.host + ":" <= NativeUrl(url)
    ensures var u, suffix := NativeUrl(url), "m/" + url.path;
      |suffix| <= |u| && u[|u| - |suffix|..] == suffix
  {
    var u := NativeUrl(url);
    var middle := PortString(url.port) + NfsVersion(url) + TransportFlag(Property(url, NFS_PROTOCOL_PROPERTY_NAME));
    assert u == ("nfs://" + url.host + ":") + middle + ("m/" + url.path);
  }

  /** What a native URL says: the server, the explicit port if any, the version, the flag and the path. */
  datatype NativeParts = NativeParts(host: string, port: Option<int>, version: string, flag: string, path: string)

  /** The index of the first occurrence of `c` in `s`, or `|s|` when there is none. */
  function IndexOf(s: string, c: char): (k: nat)
    ensures k <= |s|
    ensures forall j :: 0 <= j < k ==> s[j] != c
    ensures k < |s| ==> s[k] == c
  {
    if s == [] then 0 else if s[0] == c then 0 else 1 + IndexOf(s[1..], c)
  }

  predicate IsPortChar(c: char)
  {
    c == '-' || IsDigit(c)
  }

  /** The length of the longest prefix of `s` made of port characters. */
  function PortRun(s: string): (k: nat)
    ensures k <= |s|
  {
    if s == [] || !IsPortChar(s[0]) then 0 else 1 + PortRun(s[1..])
  }

  /**
   * Reads a native URL back into its parts, for the versions `v2` and `v3`: the server up to the first
   * colon, the port as the run of sign and digits after it, the two-character version, an optional `t`
   * or `u`, then `m/` and the path.
   */
  function ParseNativeUrl(s: string): Option<NativeParts>
  {
    if |s| < 6 || s[..6] != "nfs://" then None else ParseServer(s[6..])
  }

  /** The server up to the first colon, then the connection part after it. */
  function ParseServer(rest: string): Option<NativeParts>
  {
    var c := IndexOf(rest, ':');
    if c == |rest| then None
    else match ParseConnection(rest[c + 1..])
      case None => None
      case Some(parts) => Some(parts.(host := rest[..c]))
  }

  /** The port (absent when its text is empty), then the flags and the path. */
  function ParseConnection(afterColon: string): Option<NativeParts>
  {
    var k := PortRun(afterColon);
    var port: Option<Option<int>> :=
      if k == 0 then Some(None)
      else match ParseInt(afterColon[..k])
        case None => None
        case Some(p) => Some(Some(p));
    if port.None? then None
    else match ParseFlags(afterColon[k..])
      case None => None
      case Some(parts) => Some(parts.(port := port.value))
  }

  /** The version, the optional transport flag, `m`, the extra slash and the path. */
  function ParseFlags(tail: string): Option<NativeParts>
  {
    if |tail| < 2 || (tail[..2] != NFS_VERSION_2 && tail[..2] != NFS_VERSION_3) then None
    else
      var flags := tail[2..];
      var f := if |flags| > 0 && (flags[0] == 't' || flags[0] == 'u') then flags[..1] else "";
      var last := flags[|f|..];
      if |last| < 2 || last[..2] != "m/" then None
      else Some(NativeParts("", None, tail[..2], f, last[2..]))
  }

  lemma {:induction false} IndexOfAfter(host: string, c: char, rest: string)
    requires c !in host
    ensures IndexOf(host + [c] + rest, c) == |host|
  {
    if host != [] {
      assert (host + [c] + rest)[1..] == host[1..] + [c] + rest;
      IndexOfAfter(host[1..], c, rest);
    }
  }

  lemma {:induction false} PortRunStops(p: string, rest: string)
    requires forall j :: 0 <= j < |p| ==> IsPortChar(p[j])
    requires rest != [] && !IsPortChar(rest[0])
    ensures PortRun(p + rest) == |p|
  {
    if p != [] {
      assert (p + rest)[1..] == p[1..] + rest;
      PortRunStops(p[1..], rest);
    }
  }

  lemma PortStringChars(port: int)
    ensures forall j :: 0 <= j < |PortString(port)| ==> IsPortChar(PortString(port)[j])
  {
  }

  lemma FlagsRoundTrip(version: string, flag: string, path: string)
    requires version == NFS_VERSION_2 || version == NFS_VERSION_3
    requires flag == "" || flag == "t" || flag == "u"
    ensures ParseFlags(version + flag + "m" + "/" + path) == Some(NativeParts("", None, version, flag, path))
  {
    var last := "m" + "/" + path;
    var tail := version + flag + "m" + "/" + path;
    assert tail == version + (flag + last);
    assert tail[..2] == version && tail[2..] == flag + last;
    assert (flag + last)[|flag|..] == last;
    assert last[..2] == "m/" && last[2..] == path;
    if flag != "" {
      assert (flag + last)[..1] == flag;
    }
  }

  lemma ConnectionRoundTrip(port: int, tail: string)
    requires |tail| > 0 && tail[0] == 'v'
    ensures ParseConnection(PortString(port) + tail)
         == match ParseFlags(tail)
            case None => None
            case Some(parts) => Some(parts.(port := if PortString(port) == "" then None else Some(port)))
  {
    var ps := PortString(port);
    PortStringChars(port);
    PortRunStops(ps, tail);
    assert (ps + tail)[..|ps|] == ps && (ps + tail)[|ps|..] == tail;
  }

  lemma ServerRoundTrip(host: string, afterColon: string)
    requires ':' !in host
    ensures ParseServer(host + ":" + afterColon)
         == match ParseConnection(afterColon)
            case None => None
            case Some(parts) => Some(parts.(host := host))
  {
    var rest := host + ":" + afterColon;
    IndexOfAfter(host, ':', afterColon);
    assert rest[..|host|] == host && rest[|host| + 1..] == afterColon;
  }

  /**
   * The native URL keeps everything it encodes: for a server name without a colon and version 2 or 3,
   * reading it back gives the server, the port unless it was omitted (no port or 2049), the version,
   * the transport flag and the path.
   */
  lemma NativeUrlRoundTrip(url: FileUrl)
    requires ':' !in url.host
    requires NfsVersion(url) == NFS_VERSION_2 || NfsVersion(url) == NFS_VERSION_3
    ensures ParseNativeUrl(NativeUrl(url)) == Some(NativeParts(
      url.host,
      if url.port == NO_PORT || url.port == NFS_DEFAULT_PORT then None else Some(url.port),
      NfsVersion(url),
      TransportFlag(Property(url, NFS_PROTOCOL_PROPERTY_NAME)),
      url.path))
  {
    var v, f := NfsVersion(url), TransportFlag(Property(url, NFS_PROTOCOL_PROPERTY_NAME));
    var tail := v + f + "m" + "/" + url.path;
    var afterColon := PortString(url.port) + tail;
    var rest := url.host + ":" + afterColon;
    assert NativeUrl(url) == "nfs://" + rest;
    assert NativeUrl(url)[..6] == "nfs://" && NativeUrl(url)[6..] == rest;
    FlagsRoundTrip(v, f, url.path);
    ConnectionRoundTrip(url.port, tail);
    ServerRoundTrip(url.host, afterColon);
  }

  /** The URL text with one trailing separator, if any, removed: the file's absolute path. */
  function StripTrailingSeparator(text: string): (path: string)
    ensures text == path || text == path + SEPARATOR
    ensures text == path + SEPARATOR <==> |text| > 0 && text[|text| - 1] == '/'
  {
    if |text| > 0 && text[|text| - 1] == '/' then text[..|text| - 1] else text
  }

  /** Only one separator is removed: text ending in two separators keeps one. */
  lemma StripRemovesOneSeparator(text: string)
    requires |text| >= 2 && text[|text| - 2..] == "//"
    ensures |StripTrailingSeparator(text)| == |text| - 1
    ensures StripTrailingSeparator(text)[|text| - 2] == '/'
  {
  }

  /** The path of a child: the parent's path, with a separator appended only if it has none, then the name. */
  function ChildPath(parentPath: string, name: string): (path: string)
    ensures |parentPath| > 0 && parentPath[|parentPath| - 1] == '/' ==> path == parentPath + name
    ensures !(|parentPath| > 0 && parentPath[|parentPath| - 1] == '/') ==> path == parentPath + SEPARATOR + name
  {
    var base := if |parentPath| > 0 && parentPath[|parentPath| - 1] == '/' then parentPath else parentPath + SEPARATOR;
    base + name
  }

  /**
   * A child path is the parent path without its trailing separator, one separator, and the name: the
   * same path as `mkdir` builds from the absolute path.
   */
  lemma ChildPathJoinsStripped(parentPath: string, name: string)
    ensures ChildPath(parentPath, name) == StripTrailingSeparator(parentPath) + SEPARATOR + name
  {
  }

  /** A child path never joins parent and name with two separators added by the join. */
  lemma ChildPathAddsAtMostOneSeparator(parentPath: string, name: string)
    ensures |ChildPath(parentPath, name)| <= |parentPath| + 1 + |name|
    ensures ChildPath(parentPath, name)[..|parentPath|] == parentPath
    ensures ChildPath(parentPath, name)[|ChildPath(parentPath, name)| - |name|..] == name
    ensures ChildPath(parentPath, name)[|ChildPath(parentPath, name)| - |name| - 1] == '/'
  {
  }
}
