/** The command line `K3bCdrecordWriter::prepareProcess` builds for
    cdrecord (src/projects/k3bcdrecordwriter.cpp:126-227), as a function of
    the program, the device, the configuration, the job's settings and the
    writer's own options. The writer class builds it step by step and is
    proved to build exactly this. */
module CdrecordArgs {
  import opened CInt
  import opened Decimal
  import opened QtString
  import opened JobEvents

  /** The cdrecord installation K3b found: name, path, version and
      copyright text, the features it reported, and the extra parameters
      the user configured for it. `burnfreeName` says whether the version
      is 1.11a02 or later, where "burnproof" was renamed "burnfree". */
  datatype BinObject = BinObject(
    name: string,
    path: string,
    version: string,
    copyright: string,
    gracetime: bool,
    overburn: bool,
    suidRoot: bool,
    burnfreeName: bool,
    userParameters: seq<string>)

  /** The writer device as cdrecord addresses it, the fastest speed it
      reports (0 when unknown), and whether it supports DAO and burnproof. */
  datatype Device = Device(parameter: string, maximalWriteSpeed: int, dao: bool, burnproof: bool)

  /** The "General Options" entries read while building the command line,
      and whether K3b was built with K3bSetup. */
  datatype Config = Config(
    noCdEject: bool,
    manualBufferSize: bool,
    cdrecordBuffer: int,
    allowOverburning: bool,
    withK3bSetup: bool)

  /** The job's requested speed (0 for automatic), simulation and
      burnproof settings. */
  datatype JobSettings = JobSettings(burnSpeed: int, simulate: bool, burnproof: bool)

  /** The writer's own options. */
  datatype WriterOptions = WriterOptions(
    mode: WritingMode,
    cue: bool,
    cueFile: string,
    clone: bool,
    forceNoEject: bool)

  /** The speed the run asks for: the job's, or with automatic speed the
      device's maximum in KB/s divided by 175 (0 leaves the choice to
      cdrecord). */
  function UsedSpeed(job: JobSettings, dev: Device): (speed: int)
    ensures job.burnSpeed != 0 ==> speed == job.burnSpeed
    ensures job.burnSpeed == 0 && dev.maximalWriteSpeed >= 0 ==>
              speed * 175 <= dev.maximalWriteSpeed < (speed + 1) * 175
  {
    if job.burnSpeed == 0 then
      if dev.maximalWriteSpeed >= 0 then CDivNonNegative(dev.maximalWriteSpeed, 175); CDiv(dev.maximalWriteSpeed, 175)
      else CDiv(dev.maximalWriteSpeed, 175)
    else job.burnSpeed
  }

  /** Burnfree is used when the job asks for it and the device has it. */
  predicate UsingBurnfree(job: JobSettings, dev: Device) {
    job.burnproof && dev.burnproof
  }

  function BurnfreeOption(bin: BinObject): string {
    if bin.burnfreeName then "driveropts=burnfree" else "driveropts=burnproof"
  }

  predicate EjectAfterwards(cfg: Config, w: WriterOptions) {
    !cfg.noCdEject && !w.forceNoEject
  }

  predicate UsesCueFile(w: WriterOptions) {
    w.cue && w.cueFile != ""
  }

  /** The device options: the grace time where supported, the device
      and the speed when it is not left to cdrecord. */
  function DeviceOptions(bin: BinObject, dev: Device, job: JobSettings): seq<string> {
    var speed := UsedSpeed(job, dev);
    (if bin.gracetime then ["gracetime=2"] else [])
    + ["dev=" + dev.parameter]
    + (if speed != 0 then ["speed=" + IntToString(speed)] else [])
  }

  /** DAO only on a device that supports it; TAO needs no option. */
  function ModeOptions(dev: Device, w: WriterOptions): seq<string> {
    if w.mode == Dao && dev.dao then ["-dao"] else if w.mode == Raw then ["-raw"] else []
  }

  /** The driver options, the cue file and the FIFO size. */
  function DriverOptions(bin: BinObject, dev: Device, job: JobSettings): seq<string> {
    if UsingBurnfree(job, dev) then [BurnfreeOption(bin)] else []
  }

  function CueOptions(w: WriterOptions): seq<string> {
    if UsesCueFile(w) then ["cuefile=" + w.cueFile] else []
  }

  function BufferOptions(cfg: Config): seq<string> {
    if cfg.manualBufferSize then ["fs=" + IntToString(cfg.cdrecordBuffer) + "m"] else []
  }

  /** The options between "-v" and the user's parameters, in order. */
  function Options(bin: BinObject, dev: Device, cfg: Config, job: JobSettings, w: WriterOptions): seq<string> {
    DeviceOptions(bin, dev, job)
    + ModeOptions(dev, w)
    + (if job.simulate then ["-dummy"] else [])
    + DriverOptions(bin, dev, job)
    + CueOptions(w)
    + (if w.clone then ["-clone"] else [])
    + (if EjectAfterwards(cfg, w) then ["-eject"] else [])
    + BufferOptions(cfg)
    + (if cfg.allowOverburning && bin.overburn then ["-overburn"] else [])
  }

  /** The whole command line: program, "-v", the options, the user's
      configured parameters and the arguments added to the writer. */
  function CommandLine(bin: BinObject, dev: Device, cfg: Config, job: JobSettings, w: WriterOptions,
                       arguments: seq<string>): seq<string>
  {
    [bin.path, "-v"] + Options(bin, dev, cfg, job, w) + bin.userParameters + arguments
  }

  /** The warnings emitted while building the command line. */
  function PrepareWarnings(bin: BinObject, dev: Device, cfg: Config, job: JobSettings, w: WriterOptions): seq<Event> {
    (if w.mode == Dao && !dev.dao then [InfoMessage(DaoUnsupported, Warning)] else [])
    + (if job.burnproof && !dev.burnproof then [InfoMessage(BurnproofUnsupported, Warning)] else [])
    + (if cfg.allowOverburning && !bin.overburn then [InfoMessage(OverburnUnsupported(bin.version), Warning)] else [])
  }

  // ---------------------------------------------------------------------
  // Properties of the command line
  // ---------------------------------------------------------------------

  /** The command line starts with the program and "-v" and ends with the
      user's parameters followed by the added arguments, in order. */
  lemma CommandLineFrame(bin: BinObject, dev: Device, cfg: Config, job: JobSettings, w: WriterOptions,
                         arguments: seq<string>)
    ensures var c := CommandLine(bin, dev, cfg, job, w, arguments);
            var n := |c| - |bin.userParameters| - |arguments|;
            c[..2] == [bin.path, "-v"] && 2 <= n && c[n..] == bin.userParameters + arguments
  {
    var c := CommandLine(bin, dev, cfg, job, w, arguments);
    var head := [bin.path, "-v"] + Options(bin, dev, cfg, job, w);
    assert c == head + (bin.userParameters + arguments);
    assert c[|head|..] == bin.userParameters + arguments;
  }

  /** No element is a bare flag (one starting with '-'). */
  predicate NoFlags(s: seq<string>) {
    forall i :: 0 <= i < |s| ==> s[i] != [] && s[i][0] != '-'
  }

  /** The options that assign a value are never bare flags. */
  lemma AssignmentsAreNotFlags(bin: BinObject, dev: Device, cfg: Config, job: JobSettings, w: WriterOptions)
    ensures NoFlags(DeviceOptions(bin, dev, job)) && NoFlags(DriverOptions(bin, dev, job))
    ensures NoFlags(CueOptions(w)) && NoFlags(BufferOptions(cfg))
  {
    assert ("dev=" + dev.parameter)[0] == 'd';
    assert ("speed=" + IntToString(UsedSpeed(job, dev)))[0] == 's';
    assert ("cuefile=" + w.cueFile)[0] == 'c';
    assert ("fs=" + IntToString(cfg.cdrecordBuffer) + "m")[0] == 'f';
  }

  lemma NotFlagIn(x: string, s: seq<string>)
    requires NoFlags(s) && x != [] && x[0] == '-'
    ensures x !in s
  {
  }

  /** A bare flag is among the options exactly when one of the pieces
      that give bare flags gives it. */
  lemma FlagInOptions(x: string, bin: BinObject, dev: Device, cfg: Config, job: JobSettings, w: WriterOptions)
    requires x != [] && x[0] == '-'
    ensures x in Options(bin, dev, cfg, job, w) <==>
            || x in ModeOptions(dev, w)
            || (job.simulate && x == "-dummy")
            || (w.clone && x == "-clone")
            || (EjectAfterwards(cfg, w) && x == "-eject")
            || (cfg.allowOverburning && bin.overburn && x == "-overburn")
  {
    AssignmentsAreNotFlags(bin, dev, cfg, job, w);
    NotFlagIn(x, DeviceOptions(bin, dev, job));
    NotFlagIn(x, DriverOptions(bin, dev, job));
    NotFlagIn(x, CueOptions(w));
    NotFlagIn(x, BufferOptions(cfg));
  }

  /** "-dao" is given exactly in DAO mode on a DAO-capable device, and
      "-raw" exactly in RAW mode. */
  lemma ModeFlags(bin: BinObject, dev: Device, cfg: Config, job: JobSettings, w: WriterOptions)
    ensures var o := Options(bin, dev, cfg, job, w);
            && ("-dao" in o <==> w.mode == Dao && dev.dao)
            && ("-raw" in o <==> w.mode == Raw)
  {
    FlagInOptions("-dao", bin, dev, cfg, job, w);
    FlagInOptions("-raw", bin, dev, cfg, job, w);
  }

  /** "-dummy" is given exactly when simulating. */
  lemma DummyFlag(bin: BinObject, dev: Device, cfg: Config, job: JobSettings, w: WriterOptions)
    ensures "-dummy" in Options(bin, dev, cfg, job, w) <==> job.simulate
  {
    FlagInOptions("-dummy", bin, dev, cfg, job, w);
  }

  /** "-eject" is given exactly when neither the configuration nor the
      writer forbids it. */
  lemma EjectFlag(bin: BinObject, dev: Device, cfg: Config, job: JobSettings, w: WriterOptions)
    ensures "-eject" in Options(bin, dev, cfg, job, w) <==> EjectAfterwards(cfg, w)
  {
    FlagInOptions("-eject", bin, dev, cfg, job, w);
  }

  /** "-overburn" is given exactly when overburning is allowed and the
      program supports it, and "-clone" exactly for a clone copy. */
  lemma OverburnAndCloneFlags(bin: BinObject, dev: Device, cfg: Config, job: JobSettings, w: WriterOptions)
    ensures var o := Options(bin, dev, cfg, job, w);
            && ("-overburn" in o <==> cfg.allowOverburning && bin.overburn)
            && ("-clone" in o <==> w.clone)
  {
    FlagInOptions("-overburn", bin, dev, cfg, job, w);
    FlagInOptions("-clone", bin, dev, cfg, job, w);
  }

  /** A "speed=" option is present exactly when the used speed is not 0,
      and then it names that speed. */
  lemma SpeedOption(bin: BinObject, dev: Device, cfg: Config, job: JobSettings, w: WriterOptions)
    ensures var o := Options(bin, dev, cfg, job, w);
            var speed := UsedSpeed(job, dev);
            && (speed != 0 ==> "speed=" + IntToString(speed) in o)
            && (speed == 0 ==> NoneStartsWith(o, "speed="))
  {
    var o1 := DeviceOptions(bin, dev, job);
    DeviceSpeed(bin, dev, job);
    OtherOptionsNoSpeed(bin, dev, cfg, job, w);
    var o2 := o1 + ModeOptions(dev, w);
    NoneStartsWithAppend(o1, ModeOptions(dev, w), "speed=");
    var o3 := o2 + (if job.simulate then ["-dummy"] else []);
    NoneStartsWithAppend(o2, if job.simulate then ["-dummy"] else [], "speed=");
    var o4 := o3 + DriverOptions(bin, dev, job);
    NoneStartsWithAppend(o3, DriverOptions(bin, dev, job), "speed=");
    var o5 := o4 + CueOptions(w);
    NoneStartsWithAppend(o4, CueOptions(w), "speed=");
    var o6 := o5 + (if w.clone then ["-clone"] else []);
    NoneStartsWithAppend(o5, if w.clone then ["-clone"] else [], "speed=");
    var o7 := o6 + (if EjectAfterwards(cfg, w) then ["-eject"] else []);
    NoneStartsWithAppend(o6, if EjectAfterwards(cfg, w) then ["-eject"] else [], "speed=");
    var o8 := o7 + BufferOptions(cfg);
    NoneStartsWithAppend(o7, BufferOptions(cfg), "speed=");
    var extra := if cfg.allowOverburning && bin.overburn then ["-overburn"] else [];
    NoneStartsWithAppend(o8, extra, "speed=");
  }

  /** None of the options after the device options starts with "speed=". */
  lemma OtherOptionsNoSpeed(bin: BinObject, dev: Device, cfg: Config, job: JobSettings, w: WriterOptions)
    ensures NoneStartsWith(ModeOptions(dev, w), "speed=")
    ensures NoneStartsWith(if job.simulate then ["-dummy"] else [], "speed=")
    ensures NoneStartsWith(DriverOptions(bin, dev, job), "speed=")
    ensures NoneStartsWith(CueOptions(w), "speed=")
    ensures NoneStartsWith(if w.clone then ["-clone"] else [], "speed=")
    ensures NoneStartsWith(if EjectAfterwards(cfg, w) then ["-eject"] else [], "speed=")
    ensures NoneStartsWith(BufferOptions(cfg), "speed=")
    ensures NoneStartsWith(if cfg.allowOverburning && bin.overburn then ["-overburn"] else [], "speed=")
  {
    NotSpeed(ModeOptions(dev, w));
    NotSpeed(if job.simulate then ["-dummy"] else []);
    assert BurnfreeOption(bin)[0] == 'd';
    NotSpeed(DriverOptions(bin, dev, job));
    assert ("cuefile=" + w.cueFile)[0] == 'c';
    NotSpeed(CueOptions(w));
    NotSpeed(if w.clone then ["-clone"] else []);
    NotSpeed(if EjectAfterwards(cfg, w) then ["-eject"] else []);
    assert ("fs=" + IntToString(cfg.cdrecordBuffer) + "m")[0] == 'f';
    NotSpeed(BufferOptions(cfg));
    NotSpeed(if cfg.allowOverburning && bin.overburn then ["-overburn"] else []);
  }

  lemma NoneStartsWithAppend(s: seq<string>, t: seq<string>, p: string)
    ensures NoneStartsWith(s + t, p) <==> NoneStartsWith(s, p) && NoneStartsWith(t, p)
  {
    assert forall a :: a in s + t <==> a in s || a in t;
  }

  /** The device options name the speed exactly when it is not 0. */
  lemma DeviceSpeed(bin: BinObject, dev: Device, job: JobSettings)
    ensures var speed := UsedSpeed(job, dev);
            && (speed != 0 ==> "speed=" + IntToString(speed) in DeviceOptions(bin, dev, job))
            && (speed == 0 ==> NoneStartsWith(DeviceOptions(bin, dev, job), "speed="))
  {
    if UsedSpeed(job, dev) == 0 {
      assert ("dev=" + dev.parameter)[0] == 'd';
      NotSpeed(DeviceOptions(bin, dev, job));
    }
  }

  /** Strings whose first character is not 's' do not start with
      "speed=". */
  lemma NotSpeed(s: seq<string>)
    requires forall i :: 0 <= i < |s| ==> s[i] != [] && s[i][0] != 's'
    ensures NoneStartsWith(s, "speed=")
  {
    forall i | 0 <= i < |s|
      ensures !StartsWith(s[i], "speed=")
    {
      assert |s[i]| >= 6 ==> s[i][..6][0] == s[i][0];
    }
  }

  predicate NoneStartsWith(s: seq<string>, p: string) {
    forall a :: a in s ==> !StartsWith(a, p)
  }

  /** Only the driver options set "driveropts=". */
  lemma DriverOptionsOnly(bin: BinObject, dev: Device, cfg: Config, job: JobSettings, w: WriterOptions)
    ensures NoneStartsWith(DeviceOptions(bin, dev, job), "driveropts=")
    ensures NoneStartsWith(CueOptions(w), "driveropts=") && NoneStartsWith(BufferOptions(cfg), "driveropts=")
  {
    forall a | a in DeviceOptions(bin, dev, job) + CueOptions(w) + BufferOptions(cfg)
      ensures !StartsWith(a, "driveropts=")
    {
      assert ("dev=" + dev.parameter)[1] == 'e';
      assert ("speed=" + IntToString(UsedSpeed(job, dev)))[0] == 's';
      assert ("cuefile=" + w.cueFile)[0] == 'c';
      assert ("fs=" + IntToString(cfg.cdrecordBuffer) + "m")[0] == 'f';
      assert |a| >= 2 && (a[0] != 'd' || a[1] != 'r');
      assert |a| >= 11 ==> a[..11][0] == a[0] && a[..11][1] == a[1];
    }
  }

  /** The burnfree option is given exactly when burnfree is used, under the
      name the program's version understands; the other name never
      appears. */
  lemma BurnfreeOptionGiven(bin: BinObject, dev: Device, cfg: Config, job: JobSettings, w: WriterOptions)
    ensures var o := Options(bin, dev, cfg, job, w);
            var other := if bin.burnfreeName then "driveropts=burnproof" else "driveropts=burnfree";
            && (BurnfreeOption(bin) in o <==> UsingBurnfree(job, dev))
            && other !in o
  {
    var o := Options(bin, dev, cfg, job, w);
    var other := if bin.burnfreeName then "driveropts=burnproof" else "driveropts=burnfree";
    DriverOptionsOnly(bin, dev, cfg, job, w);
    assert StartsWith(BurnfreeOption(bin), "driveropts=");
    assert StartsWith(other, "driveropts=");
    assert other !in DriverOptions(bin, dev, job);
    assert BurnfreeOption(bin) !in ModeOptions(dev, w);
    assert other !in ModeOptions(dev, w);
  }

  /** `prepareProcess` warns, in this order, that the drive cannot write
      DAO, that it has no burnfree, and that the program cannot overburn,
      each exactly when that is what the job asks for; every one is a
      warning. */
  lemma PrepareWarningsListed(bin: BinObject, dev: Device, cfg: Config, job: JobSettings, w: WriterOptions)
    ensures var ws := PrepareWarnings(bin, dev, cfg, job, w);
            && (InfoMessage(DaoUnsupported, Warning) in ws <==> w.mode == Dao && !dev.dao)
            && (InfoMessage(BurnproofUnsupported, Warning) in ws <==> job.burnproof && !dev.burnproof)
            && (InfoMessage(OverburnUnsupported(bin.version), Warning) in ws <==>
                  cfg.allowOverburning && !bin.overburn)
            && |ws| <= 3
            && forall i :: 0 <= i < |ws| ==> ws[i].InfoMessage? && ws[i].severity == Warning
  {
    var dao := if w.mode == Dao && !dev.dao then [InfoMessage(DaoUnsupported, Warning)] else [];
    var proof := if job.burnproof && !dev.burnproof then [InfoMessage(BurnproofUnsupported, Warning)] else [];
    var over := if cfg.allowOverburning && !bin.overburn then [InfoMessage(OverburnUnsupported(bin.version), Warning)] else [];
    assert PrepareWarnings(bin, dev, cfg, job, w) == dao + proof + over;
  }
}
