# virtinst DistroInstaller: install-media logic

This project models the install-media logic of virt-install's `DistroInstaller`
(`virtinst/distroinstaller.py`) and proves what the code promises about it:

- `_is_url` decides when a location counts as a URL.
- `_get_media_type` sorts a (location, cdrom) pair into one of six media kinds.
- Several predicates depend only on the media kind: `needs_cdrom`,
  `scratchdir_required`, `has_install_phase` and `_get_bootdev`.
- The stateful installer holds a lazily filled fetcher cache and store cache.
  `_validate_location` clears both caches. `_prepare` runs a
  prepareLocation/cleanupLocation try/finally around the media-specific step.
  It appends to the temporary-file, temporary-volume and kernel-argument lists
  and records the CD-ROM path. `check_location` and `detect_distro` open the
  install tree the same way.

The project has four modules:

- `Results` (`results.dfy`) holds Python's None, its exceptions, and the rule
  that decides which exception leaves a try/finally. An exception raised in the
  `finally` clause replaces the body's.
- `Media` (`media.dfy`) is the pure classifier. The host's filesystem, as
  `os.path.exists` and `os.path.isdir` see it, is a map from path to
  directory/non-directory. `conn.is_remote()` is a boolean.
- `InstallerSpec` (`installer_spec.dfy`) holds a pure specification of every
  installer step, and the lemmas about those specifications. The collaborators
  are oracles, one outcome per collaborator, in the `Oracles` record. The
  collaborators are the scratch directory, the URL fetcher, the location's
  prepare/cleanup, store detection, boot-ISO and kernel acquisition, initrd
  injection, kernel upload and the OS database. The `Call` list records which
  collaborators a step invokes, in order.
- `DistroInstallers` (`distro_installer.dfy`) holds the `DistroInstaller` class.
  Its fields are the ones the source reads and writes. Each method is proved
  against the `InstallerSpec` function for its step. The class also keeps a
  ghost `calls` trace of collaborator invocations. `cdrom_path()` is the
  `cdromPath` field. The class invariant `Valid` says the caches are never
  stale: a cached fetcher was built for the current location, and a store is
  cached only while a fetcher is.

## Model

| member | source | states |
|---|---|---|
| Media.IsUrl | virtinst/distroinstaller.py:21-30 | On a local connection, an existing directory is a URL and an existing non-directory is not. On a remote connection, or for a path that does not exist, the result is exactly the http/https/ftp prefix test. A true result means a scheme prefix or a local directory. |
| Media.UrlSchemeMeansSchemeSplit | virtinst/distroinstaller.py:28-30 | The prefix test holds exactly when the string is `scheme://rest` for one of the schemes http, https or ftp. |
| Media.GetMediaType | virtinst/distroinstaller.py:56-67 | The kind is a CD-ROM kind iff `cdrom` is set. For each of the six kinds, the result is that kind iff its row of the first-match table applies: cdrom with no truthy location is CDROM_IMPLIED; a URL location is CDROM_URL or LOCATION_URL, depending on `cdrom`; cdrom with a non-URL location is CDROM_PATH; a non-URL directory is LOCATION_DIR; anything else is LOCATION_CDROM. |
| Media.LocalConnectionNeverLocationDir | virtinst/distroinstaller.py:25-26 | On a local connection, an existing directory is already a URL, so LOCATION_DIR never arises. |
| Media.NoInstallPhaseBootDevice | virtinst/distroinstaller.py:208-209 | A live CD has no install phase. Outside the install phase, the boot device is then the CD-ROM exactly when `cdrom` is set and the media is local, otherwise the disk. |
| Media.BootDev | virtinst/distroinstaller.py:123-135 | Only "cdrom" or "hd" is returned. The install phase always boots "cdrom". Outside the install phase, the result is "hd" unless both `cdrom` and `livecd` are set. URL kinds then give "hd", and local kinds with both flags give "cdrom". |
| Media.NeedsCdromFromInputs | virtinst/distroinstaller.py:211-214 | `needs_cdrom` holds exactly for a CD-ROM install with a truthy location, and for a non-CD-ROM install whose location is missing or is neither a URL nor a directory. |
| Media.LiveCdBootDevice | virtinst/distroinstaller.py:123-135 | Applied to the classifier's kind, outside the install phase the boot device is "cdrom" iff `cdrom` and `livecd` are set and the location is not a URL. With `cdrom` set, the kind is never LOCATION_DIR or LOCATION_CDROM. |
| InstallerSpec.ScopedCleansUpOnce | virtinst/distroinstaller.py:185-198 | If neither the calls before a try/finally scope nor its body touch the location, then the whole trace prepares it once and cleans it up once, and the cleanup is the last call. |
| InstallerSpec.FetcherCallsOutsideScope | virtinst/distroinstaller.py:69-79 | Obtaining a fetcher never prepares or cleans up its location. |
| InstallerSpec.StoreAfter | virtinst/distroinstaller.py:81-85 | A cached store stays cached. After the lookup the cache is filled exactly when the lookup succeeded. |
| InstallerSpec.AddedIso | virtinst/distroinstaller.py:90-94 | `_prepare_cdrom_url` adds at most one temporary file, and adds one exactly when a boot ISO is acquired. That file is the ISO. |
| InstallerSpec.KernelFiles | virtinst/distroinstaller.py:98-101 | The kernel is recorded first. The initrd follows it exactly when the initrd is truthy. |
| InstallerSpec.AddedArgs | virtinst/distroinstaller.py:115-116 | Boot arguments are appended only when non-empty, and then as one entry. |
| InstallerSpec.KernelAfter | virtinst/distroinstaller.py:107-116 | The earlier volumes and arguments are kept as a prefix, and at most one argument is added. An argument is added exactly when the upload succeeded and the arguments are non-empty. Nothing changes when the kernel step does not complete. |
| InstallerSpec.ScratchdirRequiredIffUsesFetcher | virtinst/distroinstaller.py:219-222 | `scratchdir_required` names exactly the kinds for which `_prepare` obtains a fetcher: every kind except CDROM_PATH and CDROM_IMPLIED. |
| InstallerSpec.InvalidLocation | virtinst/distroinstaller.py:186-191 | A ValueError from prepareLocation is re-raised with the prefix "Invalid install location: ". Any other exception passes through unchanged. |
| InstallerSpec.PrepareWithFetcher | virtinst/distroinstaller.py:183-198 | With a fetcher in hand, `_prepare`'s trace is the fetcher calls followed by the prepare/cleanup scope. Its outcome, files, store and kernel fields are those of the scope's body, under try/finally. |
| InstallerSpec.PrepareWithoutFetcher | virtinst/distroinstaller.py:183-184 | When no fetcher can be had, `_prepare` raises that error. It changes no list, no store and no kernel field. |
| InstallerSpec.PrepareLocalCdromTouchesNothing | virtinst/distroinstaller.py:176-183 | For CDROM_IMPLIED and CDROM_PATH, `_prepare` makes no collaborator call, so the fetcher is never touched. It cannot fail and changes no list or store. |
| InstallerSpec.PrepareBodyOutsideScope | virtinst/distroinstaller.py:193-196 | The media-specific step never prepares or cleans up the location itself. |
| InstallerSpec.PrepareCleansUpOnce | virtinst/distroinstaller.py:184-198 | Once a fetcher is in hand, `_prepare` prepares the location once and cleans it up exactly once, as its last call, on success and on every failure. |
| InstallerSpec.PrepareRewordsInvalidLocation | virtinst/distroinstaller.py:186-191 | A ValueError from prepareLocation leaves `_prepare` as "Invalid install location: " plus the message, after a successful cleanup, without touching the store or the temporary files. |
| InstallerSpec.PrepareSucceedsIff | virtinst/distroinstaller.py:173-200 | `_prepare` succeeds iff every collaborator it reaches succeeds. For CDROM_URL these are the store and boot ISO. For the kernel kinds, they are the whole kernel step. |
| InstallerSpec.PreparedCdromPathIffNeedsCdrom | virtinst/distroinstaller.py:179-200 | After a successful `_prepare` with a location, a CD-ROM path is recorded exactly for the kinds `needs_cdrom` names. For CDROM_URL that path is the acquired ISO. |
| InstallerSpec.CheckResult | virtinst/distroinstaller.py:224-237 | `check_location` never returns anything but True. It returns True at once for kinds other than CDROM_URL and LOCATION_URL. |
| InstallerSpec.CheckLocationScope | virtinst/distroinstaller.py:224-236 | Kinds other than CDROM_URL and LOCATION_URL make no collaborator call. Once a fetcher is in hand, the location is prepared once and cleaned up once, last. |
| InstallerSpec.CheckLocationMasksFetcherError | virtinst/distroinstaller.py:229-236 | When `_get_fetcher` raises, the `finally` clause reads the unbound `fetcher`. `check_location` then raises UnboundLocalError instead of the fetcher's error. |
| InstallerSpec.DetectRemoteNonUrlIsNone | virtinst/distroinstaller.py:251-253 | On a remote connection, a location that is not a URL yields None with no collaborator call. |
| InstallerSpec.DetectIgnoresCleanupFailure | virtinst/distroinstaller.py:243-257 | Whether cleanupLocation fails does not change what `detect_distro` returns. |
| InstallerSpec.DetectCleansUpOnce | virtinst/distroinstaller.py:242-250 | Once a fetcher is in hand, `detect_distro` prepares the location once and cleans it up once, last. |
| InstallerSpec.ValidateResult | virtinst/distroinstaller.py:137-171 | A URL is returned unchanged. Any error is a ValueError reading "Validating install media '…' failed: …", raised exactly when device validation failed. Otherwise the result is the validated device path. |
| InstallerSpec.NfsOnlyWarns | virtinst/distroinstaller.py:163-171 | The NFS warning comes only with a validation failure. The raised message is the same whether or not the warning is emitted. |
| DistroInstallers.Fetcher.constructor | virtinst/distroinstaller.py:75-76 | A new fetcher holds the location, the scratch directory and the meter it was built with. |
| DistroInstallers.DistroInstaller.constructor | virtinst/distroinstaller.py:43-49 | A new installer is not a live CD, and it has no cached fetcher, no cached store and no CD-ROM path, so `Valid` holds. |
| DistroInstallers.DistroInstaller.GetFetcher | virtinst/distroinstaller.py:69-79 | A fetcher is built only when none is cached. A cached fetcher is returned as it is. The returned fetcher's meter is always rebound to the ensured meter. A new fetcher is fresh and built on this location and the new scratch directory. A failure leaves the cache empty. |
| DistroInstallers.DistroInstaller.GetStore | virtinst/distroinstaller.py:81-85 | A store is detected only when none is cached. Otherwise the cached store is returned and no collaborator is called. |
| DistroInstallers.DistroInstaller.PrepareCdromUrl | virtinst/distroinstaller.py:90-94 | The trace, the result, the appended temporary files and the store cache are those of the `_prepare_cdrom_url` specification. Earlier temporary files are kept. |
| DistroInstallers.DistroInstaller.PrepareKernelUrl | virtinst/distroinstaller.py:96-116 | Collaborators are called in order (store, kernel, injection, upload), stopping at the first failure. Kernel files are appended even when a later step fails. Volumes, kernel, initrd and arguments are recorded only on success. |
| DistroInstallers.DistroInstaller.Prepare | virtinst/distroinstaller.py:173-200 | The trace, outcome, temporary files, store cache and kernel fields are those of the `_prepare` specification. The CD-ROM path changes only on success and never for CDROM_IMPLIED. Kinds without a fetcher leave the cached fetcher, and its meter, untouched. For the other kinds, afterwards a fetcher is cached exactly when one was obtained. A cached fetcher is kept, with its meter rebound. Otherwise the new fetcher is fresh, built on the current location and the new scratch directory, and carries the ensured meter. The cache invariant `Valid` is kept. |
| DistroInstallers.DistroInstaller.PrepareFetched | virtinst/distroinstaller.py:183-198 | For the kinds that use a fetcher, `_prepare`'s effects are stated as above, including what the fetcher cache holds afterwards: the kept fetcher, a fresh one on the current location and scratch directory, or nothing when `_get_fetcher` raised. The boot ISO is handed back when CDROM_URL media succeeds. |
| DistroInstallers.DistroInstaller.PrepareInScope | virtinst/distroinstaller.py:185-198 | The try/finally of `_prepare`: the trace is prepareLocation, the body, then cleanupLocation. The outcome is the body's, under try/finally. The lists and store change only when prepareLocation succeeded. |
| DistroInstallers.DistroInstaller.ValidateLocation | virtinst/distroinstaller.py:137-171 | Both caches are cleared whatever happens, which re-establishes the cache invariant `Valid`. The result is the `_validate_location` specification. The NFS warning is emitted exactly as `WarnsAboutNfs` says. A device validation is invoked only for a non-URL value. |
| DistroInstallers.DistroInstaller.CheckLocation | virtinst/distroinstaller.py:224-237 | The trace, the result (True or an exception) and the store cache are those of the `check_location` specification. Kinds other than the URL kinds leave the cached fetcher and its meter untouched. For the URL kinds, afterwards a fetcher is cached exactly when one was obtained, with the quiet meter. It is either the one cached before or a fresh one on the current location. The cache invariant `Valid` is kept. |
| DistroInstallers.DistroInstaller.CheckInScope | virtinst/distroinstaller.py:229-236 | The try/finally of `check_location`: prepareLocation, store detection, then cleanupLocation. Its outcome is the body's, under try/finally. |
| DistroInstallers.DistroInstaller.DetectDistro | virtinst/distroinstaller.py:239-260 | It never raises. The result, the trace and the store cache are those of the `detect_distro` specification. Non-URL media leave the cached fetcher and its meter untouched. For URL media, afterwards a fetcher is cached exactly when one was obtained, with the quiet meter. It is either the one cached before or a fresh one on the current location. The cache invariant `Valid` is kept. |
| DistroInstallers.DistroInstaller.DetectInScope | virtinst/distroinstaller.py:243-250 | The try/finally of `detect_distro` on an opened tree: the OS comes from the store, and every failure, including a failing cleanup, is swallowed. |
| DistroInstallers.RevalidationRebuildsFetcher | virtinst/distroinstaller.py:146-147 | After the location is validated again, the next `_get_fetcher` builds a new fetcher rather than reusing the old one, and no store is cached. |

## Left out

- The `guest` argument of every method: it is only passed on to collaborators,
  which are oracles here. Its connection and type go to them at
  virtinst/distroinstaller.py:73 and :108-109, and the whole object goes to
  `urldetect.getDistroStore` at :84.
- GetStore: `urldetect.getDistroStore(guest, fetcher)` at
  virtinst/distroinstaller.py:84 also receives the fetcher, but the
  `GetDistroStore` call in the trace carries no argument. The trace therefore
  does not show which fetcher, location or scratch directory the store was
  detected through.
- The collaborators' internals, which are outcomes in `Oracles`:
  `urlfetcher.fetcherForURI`, `urldetect.getDistroStore`, the store's
  `acquireBootISO`/`acquireKernel`/`get_osdict_info`,
  `OSDB.lookup_os_by_media`, `upload_kernel_initrd`, `perform_initrd_injections`,
  `util.make_scratchdir`.
- The device check in `_validate_location`: the `DeviceDisk(self.conn)`
  constructor, its `device`/`path` assignments, `validate()` and the read of
  the canonical `dev.path` (virtinst/distroinstaller.py:154-159) are one
  outcome. That outcome is the `validation` argument of `ValidateLocation`
  and `ValidateResult`: the error, or the canonical path.
- `util.get_system_scratchdir` (virtinst/distroinstaller.py:109) has no
  outcome of its own. A failure there is folded into the `upload` outcome, and
  the trace then records an `UploadKernelInitrd` call that the source never
  reaches.
- Translation: the messages built at virtinst/distroinstaller.py:168 and :191
  go through gettext `_()`. The model fixes their English text.
- InvalidLocation: `except ValueError` at virtinst/distroinstaller.py:188
  also catches subclasses of ValueError, such as UnicodeError. `Exn` has no
  subclass hierarchy, so only an exception modelled as `ValueError` is
  re-worded.
- `util.ensure_meter` is `EnsureMeter`: it keeps a given meter and substitutes
  a quiet one for None. The meter's progress output is not modelled.
- Logging: only the NFS warning of `_validate_location` is modelled, as a
  boolean result. The debug messages are not modelled.
- `_prepare_local` (virtinst/distroinstaller.py:87-88) is never called in the
  file, so it has no member.
- The base `Installer` class (`virtinst/installer.py`) is not part of this
  model. Its fields are plain fields of `DistroInstaller`, and the location
  setter that calls `_validate_location` is not modelled.
- `cdrom_path()` (virtinst/distroinstaller.py:216-217) is the `cdromPath`
  field, read directly.
- The boot arguments `acquireKernel` returns are a string; a None there is
  written as the empty string, which `if args:` treats the same way.
- Truthiness of the cached fetcher and store objects is taken as "not None".
- `DistroInstaller.Prepare`, `PrepareFetched` and `PrepareInScope` are one
  Python method. Each part's contract is stated separately.
- The exception a None location raises inside `_is_url` (a TypeError or an
  AttributeError) is swallowed by `detect_distro`, so only its effect, a None
  result, is modelled.
- `virtManagerTui/listnetworks.py` and `debug-nodedev.py` are UI and
  diagnostic scripts outside the install-media logic.
