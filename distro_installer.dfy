/** virtinst's DistroInstaller: the installer state it keeps between calls (the
    lazily filled fetcher and store caches, the recorded CD-ROM path, and the
    lists of temporary files, volumes and kernel arguments it appends to), with
    each method proved against the step described in InstallerSpec. */
module DistroInstallers {
  import opened Results
  import opened Media
  import opened InstallerSpec

  /** The URL fetcher urlfetcher.fetcherForURI builds for a location; the
      installer rebinds its progress meter on every use. */
  class Fetcher {
    const location: Option<string>
    const scratchdir: string
    var meter: Meter

    constructor (location: Option<string>, scratchdir: string, meter: Meter)
      ensures this.location == location && this.scratchdir == scratchdir && this.meter == meter
    {
      this.location := location;
      this.scratchdir := scratchdir;
      this.meter := meter;
    }
  }

  class DistroInstaller {
    // Fields of the base Installer that the distro installer reads and writes.
    const remote: bool                 // conn.is_remote()
    var location: Option<string>
    var cdrom: bool
    var extraargs: seq<string>
    var initrdInjections: seq<string>
    var tmpfiles: seq<string>
    var tmpvols: seq<string>
    var installKernel: Option<string>
    var installInitrd: Option<string>

    // The distro installer's own state.
    var livecd: bool
    var cachedFetcher: Fetcher?
    var cachedStore: Option<Store>
    var cdromPath: Option<string>       // what cdrom_path() returns

    /** The collaborator calls made so far, oldest first. */
    ghost var calls: seq<Call>

    constructor (remote: bool, location: Option<string>, cdrom: bool,
                 extraargs: seq<string>, initrdInjections: seq<string>)
      ensures this.remote == remote && this.location == location && this.cdrom == cdrom
      ensures this.extraargs == extraargs && this.initrdInjections == initrdInjections
      ensures tmpfiles == [] && tmpvols == [] && installKernel == None && installInitrd == None
      ensures !livecd && cachedFetcher == null && cachedStore == None && cdromPath == None
      ensures calls == []
      ensures Valid()
    {
      this.remote := remote;
      this.location := location;
      this.cdrom := cdrom;
      this.extraargs := extraargs;
      this.initrdInjections := initrdInjections;
      tmpfiles, tmpvols := [], [];
      installKernel, installInitrd := None, None;
      livecd := false;
      cachedFetcher, cachedStore, cdromPath := null, None, None;
      calls := [];
    }

    /** The caches are never stale: a cached fetcher was built for the current
        location, and a store is only ever detected through a cached fetcher. */
    ghost predicate Valid()
      reads this
    {
      (cachedFetcher != null ==> cachedFetcher.location == location) &&
      (cachedStore.Some? ==> cachedFetcher != null)
    }

    /** `_get_media_type` on the current fields. */
    function MediaKind(fs: FileSystem): MediaType
      reads this
    {
      GetMediaType(location, cdrom, remote, fs)
    }

    /** The scratch directory of the cached fetcher, None when there is none. */
    function CachedScratchdir(): Option<string>
      reads this
    {
      if cachedFetcher == null then None else Some(cachedFetcher.scratchdir)
    }

    /** `_get_fetcher`: builds a fetcher only when none is cached, and always
        rebinds the returned fetcher's meter. */
    method GetFetcher(meter: Option<Meter>, co: Oracles) returns (r: Result<Fetcher>)
      modifies this`cachedFetcher, this`calls, cachedFetcher
      ensures calls == old(calls) + FetcherCalls(old(cachedFetcher) != null, location, EnsureMeter(meter), co)
      ensures r.Ok? <==> FetcherObtained(old(cachedFetcher) != null, co)
      ensures r.Err? ==> r.exn == FetcherError(co) && cachedFetcher == null
      ensures r.Ok? ==> cachedFetcher == r.value && r.value.meter == EnsureMeter(meter)
      ensures old(cachedFetcher) != null ==> r == Ok(old(cachedFetcher))
      ensures old(cachedFetcher) == null && r.Ok? ==>
              fresh(r.value) && r.value.location == location && r.value.scratchdir == co.scratchdir.value
    {
      var m := EnsureMeter(meter);
      if cachedFetcher == null {
        calls := calls + [MakeScratchdir];
        if co.scratchdir.Err? {
          return Err(co.scratchdir.exn);
        }
        calls := calls + [FetcherForUri(location, co.scratchdir.value, m)];
        if co.fetcher.Fail? {
          return Err(co.fetcher.exn);
        }
        cachedFetcher := new Fetcher(location, co.scratchdir.value, m);
      }
      cachedFetcher.meter := m;
      r := Ok(cachedFetcher);
    }

    /** `_get_store`: detects a store only when none is cached. */
    method GetStore(co: Oracles) returns (r: Result<Store>)
      modifies this`cachedStore, this`calls
      ensures calls == old(calls) + StoreCalls(old(cachedStore))
      ensures r == StoreLookup(old(cachedStore), co)
      ensures cachedStore == StoreAfter(old(cachedStore), co)
    {
      if cachedStore.None? {
        calls := calls + [GetDistroStore];
        if co.store.Err? {
          return Err(co.store.exn);
        }
        cachedStore := Some(co.store.value);
      }
      r := Ok(cachedStore.value);
    }

    /** `_prepare_cdrom_url`: records the acquired boot ISO as a temporary file
        and returns it. */
    method PrepareCdromUrl(co: Oracles) returns (r: Result<string>)
      modifies this`cachedStore, this`calls, this`tmpfiles
      ensures calls == old(calls) + CdromUrlCalls(old(cachedStore), co)
      ensures r == CdromUrlResult(old(cachedStore), co)
      ensures tmpfiles == old(tmpfiles) + AddedIso(old(cachedStore), co)
      ensures cachedStore == StoreAfter(old(cachedStore), co)
    {
      var store := GetStore(co);
      if store.Err? {
        return Err(store.exn);
      }
      calls := calls + [AcquireBootIso];
      if co.bootIso.Err? {
        return Err(co.bootIso.exn);
      }
      var media := co.bootIso.value;
      tmpfiles := tmpfiles + [media];
      r := Ok(media);
    }

    /** `_prepare_kernel_url`: records the kernel and initrd as temporary files,
        runs the initrd injections, uploads both, and records the uploaded
        volumes, the installed kernel and initrd, and the boot arguments. */
    method PrepareKernelUrl(fetcher: Fetcher, co: Oracles) returns (r: Outcome)
      modifies this`cachedStore, this`calls, this`tmpfiles, this`tmpvols, this`extraargs,
               this`installKernel, this`installInitrd
      ensures calls == old(calls) + KernelUrlCalls(old(cachedStore), co, initrdInjections,
                                                    fetcher.scratchdir, fetcher.meter)
      ensures r == KernelUrlOutcome(old(cachedStore), co)
      ensures tmpfiles == old(tmpfiles) + AddedKernelFiles(old(cachedStore), co)
      ensures cachedStore == StoreAfter(old(cachedStore), co)
      ensures KernelState(tmpvols, installKernel, installInitrd, extraargs) ==
              KernelAfter(r.Pass?,
                          KernelState(old(tmpvols), old(installKernel), old(installInitrd), old(extraargs)), co)
    {
      var store := GetStore(co);
      if store.Err? {
        return Fail(store.exn);
      }
      ghost var trace := StoreCalls(old(cachedStore));
      calls := calls + [AcquireKernel];
      AppendSegments(old(calls), trace, [AcquireKernel]);
      trace := trace + [AcquireKernel];
      if co.kernel.Err? {
        return Fail(co.kernel.exn);
      }
      var kernel, initrd, args := co.kernel.value.kernel, co.kernel.value.initrd, co.kernel.value.args;
      tmpfiles := tmpfiles + [kernel];
      if Truthy(initrd) {
        tmpfiles := tmpfiles + [initrd.value];
      }

      calls := calls + [InjectInitrd(initrd, initrdInjections, fetcher.scratchdir)];
      AppendSegments(old(calls), trace, [InjectInitrd(initrd, initrdInjections, fetcher.scratchdir)]);
      trace := trace + [InjectInitrd(initrd, initrdInjections, fetcher.scratchdir)];
      if co.injection.Fail? {
        return co.injection;
      }

      calls := calls + [UploadKernelInitrd(fetcher.scratchdir, fetcher.meter, kernel, initrd)];
      AppendSegments(old(calls), trace, [UploadKernelInitrd(fetcher.scratchdir, fetcher.meter, kernel, initrd)]);
      if co.upload.Err? {
        return Fail(co.upload.exn);
      }
      tmpvols := tmpvols + co.upload.value.tmpvols;

      installKernel := Some(co.upload.value.kernel);
      installInitrd := co.upload.value.initrd;
      if args != "" {
        extraargs := extraargs + [args];
      }
      r := Pass;
    }

    /** `_prepare`: fetches what the media kind needs inside a prepare/cleanup
        scope and, only when everything succeeded, records the CD-ROM path. */
    method Prepare(meter: Option<Meter>, fs: FileSystem, co: Oracles) returns (r: Outcome)
      requires Valid()
      modifies this`cachedFetcher, this`cachedStore, this`calls, this`tmpfiles, this`tmpvols,
               this`extraargs, this`installKernel, this`installInitrd, this`cdromPath, cachedFetcher
      ensures var t := MediaKind(fs);
              calls == old(calls) + PrepareCalls(t, old(CachedScratchdir()), old(cachedStore), location,
                                                 initrdInjections, EnsureMeter(meter), co)
      ensures r == PrepareOutcome(MediaKind(fs), old(cachedFetcher) != null, old(cachedStore), co)
      ensures tmpfiles == old(tmpfiles) + PrepareTmpfiles(MediaKind(fs), old(cachedFetcher) != null,
                                                          old(cachedStore), co)
      ensures cachedStore == PrepareStore(MediaKind(fs), old(cachedFetcher) != null, old(cachedStore), co)
      ensures KernelState(tmpvols, installKernel, installInitrd, extraargs) ==
              KernelAfter(PrepareInstallsKernel(MediaKind(fs), old(cachedFetcher) != null, old(cachedStore), co),
                          KernelState(old(tmpvols), old(installKernel), old(installInitrd), old(extraargs)), co)
      ensures cdromPath == if r.Pass? && MediaKind(fs) != CdromImplied
                           then RecordedCdromPath(MediaKind(fs), location, co.bootIso)
                           else old(cdromPath)
      ensures !UsesFetcher(MediaKind(fs)) ==>
              cachedFetcher == old(cachedFetcher) &&
              (cachedFetcher != null ==> cachedFetcher.meter == old(cachedFetcher.meter))
      ensures UsesFetcher(MediaKind(fs)) ==>
              (cachedFetcher != null <==> FetcherObtained(old(cachedFetcher) != null, co))
      ensures UsesFetcher(MediaKind(fs)) && old(cachedFetcher) != null ==>
              cachedFetcher == old(cachedFetcher) && cachedFetcher.meter == EnsureMeter(meter)
      ensures UsesFetcher(MediaKind(fs)) && old(cachedFetcher) == null && cachedFetcher != null ==>
              fresh(cachedFetcher) && cachedFetcher.location == location &&
              cachedFetcher.scratchdir == co.scratchdir.value && cachedFetcher.meter == EnsureMeter(meter)
      ensures Valid()
    {
      var kind := MediaKind(fs);
      if kind == CdromImplied {
        return Pass;
      }

      var path: Option<string> := None;
      if kind == CdromPath || kind == LocationCdrom {
        path := location;
      }

      r := Pass;
      if kind != CdromPath {
        var iso;
        r, iso := PrepareFetched(kind, meter, co);
        if r.Fail? {
          return;
        }
        if kind == CdromUrl {
          path := iso;
        }
      }
      cdromPath := path;
    }

    /** The part of `_prepare` for the kinds that need a fetcher: the fetcher is
        obtained and the location used inside its prepare/cleanup scope. `iso`
        is the boot ISO acquired for CD-ROM URL media. */
    method PrepareFetched(kind: MediaType, meter: Option<Meter>, co: Oracles) returns (r: Outcome, iso: Option<string>)
      requires UsesFetcher(kind)
      modifies this`cachedFetcher, this`cachedStore, this`calls, this`tmpfiles, this`tmpvols,
               this`extraargs, this`installKernel, this`installInitrd, cachedFetcher
      ensures calls == old(calls) + PrepareCalls(kind, old(CachedScratchdir()), old(cachedStore), location,
                                                 initrdInjections, EnsureMeter(meter), co)
      ensures r == PrepareOutcome(kind, old(cachedFetcher) != null, old(cachedStore), co)
      ensures tmpfiles == old(tmpfiles) + PrepareTmpfiles(kind, old(cachedFetcher) != null, old(cachedStore), co)
      ensures cachedStore == PrepareStore(kind, old(cachedFetcher) != null, old(cachedStore), co)
      ensures KernelState(tmpvols, installKernel, installInitrd, extraargs) ==
              KernelAfter(PrepareInstallsKernel(kind, old(cachedFetcher) != null, old(cachedStore), co),
                          KernelState(old(tmpvols), old(installKernel), old(installInitrd), old(extraargs)), co)
      ensures r.Pass? && kind == CdromUrl ==> co.bootIso.Ok? && iso == Some(co.bootIso.value)
      ensures cachedFetcher != null <==> FetcherObtained(old(cachedFetcher) != null, co)
      ensures old(cachedFetcher) != null ==>
              cachedFetcher == old(cachedFetcher) && cachedFetcher.meter == EnsureMeter(meter)
      ensures old(cachedFetcher) == null && cachedFetcher != null ==>
              fresh(cachedFetcher) && cachedFetcher.location == location &&
              cachedFetcher.scratchdir == co.scratchdir.value && cachedFetcher.meter == EnsureMeter(meter)
    {
      var f := GetFetcher(meter, co);
      if f.Err? {
        PrepareWithoutFetcher(kind, old(CachedScratchdir()), old(cachedStore), location, initrdInjections,
                              EnsureMeter(meter), co);
        return Fail(f.exn), None;
      }
      PrepareWithFetcher(kind, old(CachedScratchdir()), old(cachedStore), location, initrdInjections,
                         EnsureMeter(meter), co);
      r, iso := PrepareInScope(kind, f.value, co);
      AppendSegments(old(calls), FetcherCalls(old(cachedFetcher) != null, location, EnsureMeter(meter), co),
                     Scoped(PrepareBodyCalls(kind, old(cachedStore), co, initrdInjections,
                                             f.value.scratchdir, f.value.meter)));
    }

    /** The try/finally of `_prepare`: prepareLocation (a ValueError re-worded as
        an invalid location), then the ISO or the kernel, then cleanupLocation
        whatever happened. `iso` is the boot ISO acquired for CD-ROM URL media. */
    method PrepareInScope(kind: MediaType, fetcher: Fetcher, co: Oracles) returns (r: Outcome, iso: Option<string>)
      requires UsesFetcher(kind)
      modifies this`cachedStore, this`calls, this`tmpfiles, this`tmpvols,
               this`extraargs, this`installKernel, this`installInitrd
      ensures calls == old(calls) + Scoped(PrepareBodyCalls(kind, old(cachedStore), co, initrdInjections,
                                                            fetcher.scratchdir, fetcher.meter))
      ensures r == Finally(PrepareBodyOutcome(kind, old(cachedStore), co), co.cleanupLocation)
      ensures tmpfiles == old(tmpfiles) +
                          (if co.prepareLocation.Fail? then []
                           else if kind == CdromUrl then AddedIso(old(cachedStore), co)
                           else AddedKernelFiles(old(cachedStore), co))
      ensures cachedStore == if co.prepareLocation.Pass? then StoreAfter(old(cachedStore), co) else old(cachedStore)
      ensures KernelState(tmpvols, installKernel, installInitrd, extraargs) ==
              KernelAfter(co.prepareLocation.Pass? && kind != CdromUrl && KernelUrlOutcome(old(cachedStore), co) == Pass,
                          KernelState(old(tmpvols), old(installKernel), old(installInitrd), old(extraargs)), co)
      ensures r.Pass? && kind == CdromUrl ==> co.bootIso.Ok? && iso == Some(co.bootIso.value)
    {
      iso := None;
      // try:
      calls := calls + [PrepareLocation];
      var body: Outcome;
      if co.prepareLocation.Fail? {
        body := Fail(InvalidLocation(co.prepareLocation.exn));
      } else if kind == CdromUrl {
        var media := PrepareCdromUrl(co);
        if media.Ok? {
          iso := Some(media.value);
          body := Pass;
        } else {
          body := Fail(media.exn);
        }
      } else {
        body := PrepareKernelUrl(fetcher, co);
      }
      ghost var bodyCalls := PrepareBodyCalls(kind, old(cachedStore), co, initrdInjections,
                                              fetcher.scratchdir, fetcher.meter);
      assert calls == old(calls) + [PrepareLocation] + bodyCalls;
      AppendSegments(old(calls), [PrepareLocation], bodyCalls);
      // finally:
      calls := calls + [CleanupLocation];
      AppendSegments(old(calls), [PrepareLocation] + bodyCalls, [CleanupLocation]);
      r := Finally(body, co.cleanupLocation);
    }

    /** `_validate_location`: drops both caches, then accepts a URL as it is or
        validates the path as a CD-ROM device. `warned` says whether the NFS
        warning was logged. */
    method ValidateLocation(val: string, fs: FileSystem, validation: Result<string>)
      returns (r: Result<string>, warned: bool)
      modifies this`cachedFetcher, this`cachedStore, this`calls
      ensures cachedFetcher == null && cachedStore == None
      ensures r == ValidateResult(remote, fs, val, validation)
      ensures warned == WarnsAboutNfs(remote, fs, val, validation)
      ensures calls == old(calls) + (if IsUrl(remote, fs, val) then [] else [ValidateDevice(val)])
      ensures Valid()
    {
      cachedStore := None;
      cachedFetcher := null;
      warned := false;

      if IsUrl(remote, fs, val) {
        return Ok(val), false;
      }

      calls := calls + [ValidateDevice(val)];
      if validation.Err? {
        if StartsWith(val, "nfs:") {
          warned := true;
        }
        return Err(ValueError(ValidationMessage(val, validation.exn))), warned;
      }
      r := Ok(validation.value);
    }

    /** `check_location`: for URL media, opens the location and forces store
        detection so that a bad tree raises; otherwise returns True at once. */
    method CheckLocation(fs: FileSystem, co: Oracles) returns (r: Result<bool>)
      requires Valid()
      modifies this`cachedFetcher, this`cachedStore, this`calls, cachedFetcher
      ensures calls == old(calls) + CheckCalls(MediaKind(fs), old(cachedFetcher) != null, old(cachedStore),
                                               location, co)
      ensures r == CheckResult(MediaKind(fs), old(cachedFetcher) != null, old(cachedStore), co)
      ensures cachedStore == CheckStore(MediaKind(fs), old(cachedFetcher) != null, old(cachedStore), co)
      ensures !ChecksFetcher(MediaKind(fs)) ==>
              cachedFetcher == old(cachedFetcher) &&
              (cachedFetcher != null ==> cachedFetcher.meter == old(cachedFetcher.meter))
      ensures ChecksFetcher(MediaKind(fs)) ==>
              (cachedFetcher != null <==> FetcherObtained(old(cachedFetcher) != null, co))
      ensures ChecksFetcher(MediaKind(fs)) && old(cachedFetcher) != null ==>
              cachedFetcher == old(cachedFetcher) && cachedFetcher.meter == QuietMeter
      ensures ChecksFetcher(MediaKind(fs)) && old(cachedFetcher) == null && cachedFetcher != null ==>
              fresh(cachedFetcher) && cachedFetcher.location == location &&
              cachedFetcher.scratchdir == co.scratchdir.value && cachedFetcher.meter == QuietMeter
      ensures Valid()
    {
      var kind := MediaKind(fs);
      if !ChecksFetcher(kind) {
        return Ok(true);
      }

      // try:
      var f := GetFetcher(None, co);
      if f.Err? {
        // finally: `fetcher` was never bound
        return Err(UnboundLocalError("fetcher"));
      }
      var scoped := CheckInScope(co);
      AppendSegments(old(calls), FetcherCalls(old(cachedFetcher) != null, location, QuietMeter, co),
                     Scoped(CheckBodyCalls(old(cachedStore), co)));
      match scoped
      case Pass => r := Ok(true);
      case Fail(e) => r := Err(e);
    }

    /** The try/finally of `check_location` once the fetcher is in hand:
        prepareLocation, then store detection, then cleanupLocation whatever
        happened. */
    method CheckInScope(co: Oracles) returns (r: Outcome)
      modifies this`cachedStore, this`calls
      ensures calls == old(calls) + Scoped(CheckBodyCalls(old(cachedStore), co))
      ensures r == Finally(CheckBodyOutcome(old(cachedStore), co), co.cleanupLocation)
      ensures cachedStore == if co.prepareLocation.Pass? then StoreAfter(old(cachedStore), co) else old(cachedStore)
    {
      calls := calls + [PrepareLocation];
      var body: Outcome := co.prepareLocation;
      if body.Pass? {
        var store := GetStore(co);
        if store.Err? {
          body := Fail(store.exn);
        }
      }
      ghost var bodyCalls := CheckBodyCalls(old(cachedStore), co);
      assert calls == old(calls) + [PrepareLocation] + bodyCalls;
      AppendSegments(old(calls), [PrepareLocation], bodyCalls);
      // finally:
      calls := calls + [CleanupLocation];
      AppendSegments(old(calls), [PrepareLocation] + bodyCalls, [CleanupLocation]);
      r := Finally(body, co.cleanupLocation);
    }

    /** `detect_distro`: asks the store (URL media) or the OS database (local
        media) which OS the media holds; every exception yields None. */
    method DetectDistro(fs: FileSystem, co: Oracles) returns (distro: Option<string>)
      requires Valid()
      modifies this`cachedFetcher, this`cachedStore, this`calls, cachedFetcher
      ensures calls == old(calls) + DetectCalls(location, remote, fs, old(cachedFetcher) != null,
                                                old(cachedStore), co)
      ensures distro == DetectResult(location, remote, fs, old(cachedFetcher) != null, old(cachedStore), co)
      ensures cachedStore == DetectStore(location, remote, fs, old(cachedFetcher) != null, old(cachedStore), co)
      ensures !DetectFetches(location, remote, fs) ==>
              cachedFetcher == old(cachedFetcher) &&
              (cachedFetcher != null ==> cachedFetcher.meter == old(cachedFetcher.meter))
      ensures DetectFetches(location, remote, fs) ==>
              (cachedFetcher != null <==> FetcherObtained(old(cachedFetcher) != null, co))
      ensures DetectFetches(location, remote, fs) && old(cachedFetcher) != null ==>
              cachedFetcher == old(cachedFetcher) && cachedFetcher.meter == QuietMeter
      ensures DetectFetches(location, remote, fs) && old(cachedFetcher) == null && cachedFetcher != null ==>
              fresh(cachedFetcher) && cachedFetcher.location == location &&
              cachedFetcher.scratchdir == co.scratchdir.value && cachedFetcher.meter == QuietMeter
      ensures Valid()
    {
      distro := None;
      if location.None? {
        // `_is_url` raises on None; the exception is swallowed
        return;
      }
      var loc := location.value;
      if IsUrl(remote, fs, loc) {
        // try:
        var f := GetFetcher(None, co);
        if f.Err? {
          // finally: `fetcher` was never bound; swallowed
          return;
        }
        distro := DetectInScope(co);
        AppendSegments(old(calls), FetcherCalls(old(cachedFetcher) != null, location, QuietMeter, co),
                       Scoped(DetectBodyCalls(old(cachedStore), co)));
      } else if remote {
        // no detection for media on a remote connection
      } else {
        calls := calls + [LookupOsByMedia(loc)];
        if co.osByMedia.Ok? {
          distro := co.osByMedia.value;
        }
      }
    }

    /** The try/finally of `detect_distro` on an opened install tree: the store
        is asked for the OS, and every error, a failing cleanup included, is
        swallowed. */
    method DetectInScope(co: Oracles) returns (distro: Option<string>)
      modifies this`cachedStore, this`calls
      ensures calls == old(calls) + Scoped(DetectBodyCalls(old(cachedStore), co))
      ensures distro == DetectTreeResult(old(cachedStore), co)
      ensures cachedStore == if co.prepareLocation.Pass? then StoreAfter(old(cachedStore), co) else old(cachedStore)
    {
      distro := None;
      calls := calls + [PrepareLocation];
      if co.prepareLocation.Pass? {
        var store := GetStore(co);
        if store.Ok? {
          calls := calls + [GetOsdictInfo];
          if co.osdictInfo.Ok? {
            distro := co.osdictInfo.value;
          }
        }
      }
      // finally: a failing cleanup is swallowed too
      calls := calls + [CleanupLocation];
    }
  }

  /** Revalidating the location discards the cached fetcher and store, so the
      next `_get_fetcher` builds a new fetcher instead of reusing the old one. */
  method RevalidationRebuildsFetcher(installer: DistroInstaller, val: string, fs: FileSystem,
                                     validation: Result<string>, co: Oracles)
    returns (f: Result<Fetcher>)
    requires co.scratchdir.Ok? && co.fetcher.Pass?
    modifies installer, installer.cachedFetcher
    ensures f.Ok? && fresh(f.value) && f.value != old(installer.cachedFetcher)
    ensures installer.cachedStore == None && installer.Valid()
  {
    var _, _ := installer.ValidateLocation(val, fs, validation);
    f := installer.GetFetcher(None, co);
  }
}
