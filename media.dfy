/** The install-media classifier of virtinst's DistroInstaller: when a location
    counts as a URL, which of the six media kinds a (location, cdrom) pair is, and
    the predicates and boot-device choice that depend only on that kind. */
module Media {
  import opened Results

  /** What os.path reports for a path on the machine running the installer. */
  datatype PathKind = Directory | NonDirectory

  /** The local filesystem, as far as os.path.exists and os.path.isdir see it. */
  type FileSystem = map<string, PathKind>

  /** os.path.exists; the empty path never exists. */
  predicate PathExists(fs: FileSystem, path: string)
  {
    path != "" && path in fs
  }

  /** os.path.isdir; only an existing path can be a directory. */
  predicate PathIsDir(fs: FileSystem, path: string)
  {
    PathExists(fs, path) && fs[path] == Directory
  }

  predicate StartsWith(s: string, prefix: string)
  {
    |prefix| <= |s| && s[..|prefix|] == prefix
  }

  /** The prefix test of `_is_url`. */
  predicate HasUrlScheme(url: string)
  {
    StartsWith(url, "http://") || StartsWith(url, "https://") || StartsWith(url, "ftp://")
  }

  /** The schemes a network install tree may be fetched over. */
  const UrlSchemes: set<string> := {"http", "https", "ftp"}

  predicate SchemeSplit(url: string, scheme: string, rest: string)
  {
    url == scheme + "://" + rest
  }

  /** The prefix test accepts exactly the strings `scheme://rest` for a
      supported scheme. */
  lemma UrlSchemeMeansSchemeSplit(url: string)
    ensures HasUrlScheme(url) <==>
            exists scheme, rest :: scheme in UrlSchemes && SchemeSplit(url, scheme, rest)
  {
    if HasUrlScheme(url) {
      if StartsWith(url, "http://") {
        assert "http" in UrlSchemes && SchemeSplit(url, "http", url[7..]);
      } else if StartsWith(url, "https://") {
        assert "https" in UrlSchemes && SchemeSplit(url, "https", url[8..]);
      } else {
        assert "ftp" in UrlSchemes && SchemeSplit(url, "ftp", url[6..]);
      }
    }
    if exists scheme, rest :: scheme in UrlSchemes && SchemeSplit(url, scheme, rest) {
      var scheme, rest :| scheme in UrlSchemes && SchemeSplit(url, scheme, rest);
      assert url[..|scheme| + 3] == scheme + "://";
    }
  }

  /** `_is_url`: on a local connection an existing path is a URL exactly when it
      is a directory; otherwise only the scheme prefix decides. */
  function IsUrl(remote: bool, fs: FileSystem, url: string): (r: bool)
    ensures !remote && PathIsDir(fs, url) ==> r
    ensures !remote && PathExists(fs, url) && !PathIsDir(fs, url) ==> !r
    ensures remote || !PathExists(fs, url) ==> (r <==> HasUrlScheme(url))
    ensures r ==> HasUrlScheme(url) || (!remote && PathIsDir(fs, url))
  {
    if !remote && PathExists(fs, url) then PathIsDir(fs, url)
    else HasUrlScheme(url)
  }

  /** The six kinds of install media. */
  datatype MediaType =
    | LocationDir
    | LocationCdrom
    | LocationUrl
    | CdromPath
    | CdromUrl
    | CdromImplied

  predicate IsCdromKind(t: MediaType)
  {
    t == CdromPath || t == CdromUrl || t == CdromImplied
  }

  /** `_get_media_type`, a first-match decision table, stated kind by kind. */
  function GetMediaType(location: Option<string>, cdrom: bool, remote: bool, fs: FileSystem): (r: MediaType)
    ensures IsCdromKind(r) <==> cdrom
    ensures r == CdromImplied <==> cdrom && !Truthy(location)
    ensures r == CdromUrl <==> cdrom && Truthy(location) && IsUrl(remote, fs, location.value)
    ensures r == LocationUrl <==> !cdrom && Truthy(location) && IsUrl(remote, fs, location.value)
    ensures r == CdromPath <==> cdrom && Truthy(location) && !IsUrl(remote, fs, location.value)
    ensures r == LocationDir <==>
            !cdrom && Truthy(location) && !IsUrl(remote, fs, location.value) && PathIsDir(fs, location.value)
    ensures r == LocationCdrom <==>
            !cdrom && (!Truthy(location) ||
                       (!IsUrl(remote, fs, location.value) && !PathIsDir(fs, location.value)))
  {
    if cdrom && !Truthy(location) then CdromImplied
    else if Truthy(location) && IsUrl(remote, fs, location.value) then
      (if cdrom then CdromUrl else LocationUrl)
    else if cdrom then CdromPath
    else if Truthy(location) && PathIsDir(fs, location.value) then LocationDir
    else LocationCdrom
  }

  /** On a local connection an existing directory is already a URL, so the
      directory kind is never produced there. */
  lemma LocalConnectionNeverLocationDir(location: Option<string>, cdrom: bool, fs: FileSystem)
    ensures GetMediaType(location, cdrom, false, fs) != LocationDir
  {
  }

  /** `needs_cdrom`. */
  predicate NeedsCdrom(t: MediaType)
  {
    t == CdromPath || t == LocationCdrom || t == CdromUrl
  }

  /** In terms of the installer's inputs, a CD-ROM device is needed for any
      CD-ROM install that names its media, and for a non-CD-ROM install whose
      location is missing or is neither a URL nor a directory. */
  lemma NeedsCdromFromInputs(location: Option<string>, cdrom: bool, remote: bool, fs: FileSystem)
    ensures NeedsCdrom(GetMediaType(location, cdrom, remote, fs)) <==>
            if cdrom then Truthy(location)
            else !Truthy(location) || (!IsUrl(remote, fs, location.value) && !PathIsDir(fs, location.value))
  {
  }

  /** `scratchdir_required`. */
  predicate ScratchdirRequired(t: MediaType)
  {
    t == CdromUrl || t == LocationUrl || t == LocationDir || t == LocationCdrom
  }

  /** `has_install_phase`: a live CD boots straight into the guest. */
  function HasInstallPhase(livecd: bool): bool
  {
    !livecd
  }

  /** The kinds `_get_bootdev` treats as media that stay on the host. */
  predicate IsLocalMedia(t: MediaType)
  {
    t == CdromPath || t == CdromImplied || t == LocationDir || t == LocationCdrom
  }

  /** `_get_bootdev`: the install phase always boots the CD-ROM; afterwards only
      a live CD on local media keeps booting it. */
  function BootDev(t: MediaType, isinstall: bool, cdrom: bool, livecd: bool): (r: string)
    ensures r == "cdrom" || r == "hd"
    ensures isinstall ==> r == "cdrom"
    ensures !isinstall && (!cdrom || !livecd) ==> r == "hd"
    ensures !isinstall && (t == LocationUrl || t == CdromUrl) ==> r == "hd"
    ensures cdrom && livecd && IsLocalMedia(t) ==> r == "cdrom"
  {
    if isinstall || (IsLocalMedia(t) && cdrom && livecd) then "cdrom" else "hd"
  }

  /** A live CD has no install phase. Outside the install phase it then boots
      the CD-ROM exactly for local CD-ROM media, otherwise the disk. */
  lemma NoInstallPhaseBootDevice(t: MediaType, cdrom: bool, livecd: bool)
    requires !HasInstallPhase(livecd)
    ensures BootDev(t, false, cdrom, livecd) == "cdrom" <==> cdrom && IsLocalMedia(t)
  {
  }

  /** With the classifier in front of it, the live-CD branch of `_get_bootdev`
      depends only on whether the location is a URL: the directory and device
      kinds in its list never arise while `cdrom` is set. */
  lemma LiveCdBootDevice(location: Option<string>, cdrom: bool, livecd: bool, remote: bool, fs: FileSystem)
    ensures BootDev(GetMediaType(location, cdrom, remote, fs), false, cdrom, livecd) == "cdrom" <==>
            cdrom && livecd && !(Truthy(location) && IsUrl(remote, fs, location.value))
    ensures cdrom ==> GetMediaType(location, cdrom, remote, fs) != LocationDir &&
                      GetMediaType(location, cdrom, remote, fs) != LocationCdrom
  {
  }
}
