/** The incremental build of a tool: two objects and an executable, and the time stamps and dependency files that say
    what has to be built again. The compiler and the linker are parameters. */
module Bootstrap {

  import opened Wrappers

  type Path = string
  type Text = string
  type Texts = map<Path, Text>

  datatype File = File(time: nat, text: Text)

  /** What the build writes. A missing file has time stamp 0. */
  datatype Output = Missing | Output(time: nat, text: Text)

  /** The shared tools (unit 0) and the tool itself (unit 1): the sources that are checked, and those that must be in
      the dependency file. */
  datatype Unit = Unit(sources: seq<Path>, required: seq<Path>)

  /** `missed` is not on the disk, and the build does not look at it: what the compiler looked for and did not find when
      each unit was last compiled. */
  datatype Disk = Disk(files: map<Path, File>, objects: seq<Output>, dependencies: seq<Option<seq<Path>>>,
                       missed: seq<seq<Path>>, exe: Output, clock: nat)

  /** What the compiler reads, what it looks for and does not find, and what it makes of it, for each unit; and what the
      linker makes of the two objects. */
  datatype Compiler = Compiler(
    inputs: (nat, Texts) -> seq<Path>,
    misses: (nat, Texts) -> seq<Path>,
    compile: (nat, Texts) -> Option<Text>,
    link: (Text, Text) -> Text)

  /** What happens when a unit is compiled: the compiler may fail for other reasons than the sources, and may then
      leave or remove the old object and the old dependency file. */
  datatype Outcome = Outcome(works: bool, keepsObject: bool, keepsDependencies: bool)

  /** What happens in a run of the build. `keepsExe`: a linker that fails leaves the old executable. */
  datatype Answers = Answers(hasCompiler: bool, units: seq<Outcome>, links: bool, keepsExe: bool)

  predicate Shaped(d: Disk)
  {
    |d.objects| == 2 && |d.dependencies| == 2 && |d.missed| == 2
  }

  function TimeOf(o: Output): nat
  {
    if o.Missing? then 0 else o.time
  }

  function TextsOf(files: map<Path, File>): Texts
  {
    map p | p in files :: files[p].text
  }

  // ------------------------------------------------------------------ What has to be built

  /** checkNeedsRebuild, for the sources and then for the dependencies. */
  predicate AnyNewer(files: map<Path, File>, paths: seq<Path>, time: nat)
  {
    exists i :: 0 <= i < |paths| && (paths[i] !in files || files[paths[i]].time > time)
  }

  function Listed(dependencies: Option<seq<Path>>): seq<Path>
  {
    match dependencies case None => [] case Some(paths) => paths
  }

  predicate HasRequired(paths: seq<Path>, required: seq<Path>)
  {
    forall i :: 0 <= i < |required| ==> required[i] in paths
  }

  predicate NeedsObject(d: Disk, units: seq<Unit>, u: nat)
    requires Shaped(d) && u < 2 == |units|
  {
    var time, paths := TimeOf(d.objects[u]), Listed(d.dependencies[u]);
    || time == 0
    || paths == [] || !HasRequired(paths, units[u].required)
    || AnyNewer(d.files, units[u].sources, time) || AnyNewer(d.files, paths, time)
  }

  predicate NeedsExe(d: Disk)
    requires Shaped(d)
  {
    TimeOf(d.exe) == 0 || TimeOf(d.objects[0]) > TimeOf(d.exe) || TimeOf(d.objects[1]) > TimeOf(d.exe)
  }

  /** Nothing has to be built. */
  predicate Idle(d: Disk, units: seq<Unit>)
    requires Shaped(d) && |units| == 2
  {
    !NeedsObject(d, units, 0) && !NeedsObject(d, units, 1) && !NeedsExe(d)
  }

  // ------------------------------------------------------------------ Building

  function CompileUnit(k: Compiler, d: Disk, u: nat, o: Outcome): (r: (Disk, bool))
    requires Shaped(d) && u < 2
    ensures Shaped(r.0)
  {
    var texts := TextsOf(d.files);
    var text := k.compile(u, texts);
    if o.works && text.Some? then
      (d.(objects := d.objects[u := Output(d.clock + 1, text.value)],
          dependencies := d.dependencies[u := Some(k.inputs(u, texts))],
          missed := d.missed[u := k.misses(u, texts)],
          clock := d.clock + 1), true)
    else
      (d.(objects := d.objects[u := if o.keepsObject then d.objects[u] else Missing],
          dependencies := d.dependencies[u := if o.keepsDependencies then d.dependencies[u] else None]), false)
  }

  /** The unit is compiled if that is needed. */
  function CompileIf(k: Compiler, d: Disk, u: nat, o: Outcome, needed: bool): (r: (Disk, bool))
    requires Shaped(d) && u < 2
    ensures Shaped(r.0)
  {
    if needed then CompileUnit(k, d, u, o) else (d, true)
  }

  function Link(k: Compiler, d: Disk, a: Answers): (r: (Disk, bool))
    requires Shaped(d)
    ensures Shaped(r.0)
  {
    if a.links && d.objects[0].Output? && d.objects[1].Output? then
      (d.(exe := Output(d.clock + 1, k.link(d.objects[0].text, d.objects[1].text)), clock := d.clock + 1), true)
    else (d.(exe := if a.keepsExe then d.exe else Missing), false)
  }

  /** compilePOSIX: what is needed is decided first, and both units are compiled even if one of them fails. */
  function CompileAll(k: Compiler, units: seq<Unit>, d: Disk, a: Answers): (r: (Disk, bool))
    requires Shaped(d) && |units| == 2 == |a.units|
    ensures Shaped(r.0)
  {
    if !a.hasCompiler then (d, false)
    else
      var tools, tool := NeedsObject(d, units, 0), NeedsObject(d, units, 1);
      var first := CompileIf(k, d, 0, a.units[0], tools);
      var second := CompileIf(k, first.0, 1, a.units[1], tool);
      if !(first.1 && second.1) then (second.0, false)
      else if NeedsExe(second.0) then Link(k, second.0, a)
      else (second.0, true)
  }

  function Build(k: Compiler, units: seq<Unit>, d: Disk, a: Answers): (r: (Disk, bool))
    requires Shaped(d) && |units| == 2 == |a.units|
    ensures Shaped(r.0)
  {
    if Idle(d, units) then (d, true) else CompileAll(k, units, d, a)
  }

  /** What building everything from the sources as they are gives, if they compile. */
  function CleanExe(k: Compiler, files: map<Path, File>): Option<Text>
  {
    var tools, tool := k.compile(0, TextsOf(files)), k.compile(1, TextsOf(files));
    if tools.Some? && tool.Some? then Some(k.link(tools.value, tool.value)) else None
  }

  // ------------------------------------------------------------------ Histories

  /** Sources are written and removed between builds; what is written gets the time of the clock. */
  datatype Step = Write(path: Path, text: Text) | Remove(path: Path) | Make(a: Answers)

  predicate Sensible(e: Step)
  {
    e.Make? ==> |e.a.units| == 2
  }

  function Next(k: Compiler, units: seq<Unit>, d: Disk, e: Step): (d': Disk)
    requires Shaped(d) && |units| == 2 && Sensible(e)
    ensures Shaped(d')
  {
    match e
    case Write(p, text) => d.(files := d.files[p := File(d.clock + 1, text)], clock := d.clock + 1)
    case Remove(p) => d.(files := map q | q in d.files && q != p :: d.files[q])
    case Make(a) => Build(k, units, d, a).0
  }

  function Run(k: Compiler, units: seq<Unit>, d: Disk, steps: seq<Step>): (d': Disk)
    requires Shaped(d) && |units| == 2 && forall e :: e in steps ==> Sensible(e)
    ensures Shaped(d')
    decreases |steps|
  {
    if steps == [] then d else Run(k, units, Next(k, units, d, steps[0]), steps[1..])
  }

  function EmptyDisk(): Disk
  {
    Disk(map[], [Missing, Missing], [None, None], [[], []], Missing, 0)
  }

  // ------------------------------------------------------------------ What is assumed of the compiler

  predicate Agree(f: Texts, g: Texts, paths: seq<Path>)
  {
    forall p :: p in paths ==> p in f && p in g && f[p] == g[p]
  }

  predicate Absent(f: Texts, paths: seq<Path>)
  {
    forall p :: p in paths ==> p !in f
  }

  /** What the compiler reads and makes depends only on the files it reads and on the absence of those it looks for and
      does not find; it reads files that exist, and the sources that the build requires to be listed. */
  ghost predicate Local(k: Compiler, units: seq<Unit>)
    requires |units| == 2
  {
    forall u: nat, f: Texts :: u < 2 && k.compile(u, f).Some? ==> LocalAt(k, units[u], u, f)
  }

  ghost predicate LocalAt(k: Compiler, unit: Unit, u: nat, f: Texts)
  {
    && (forall p :: p in k.inputs(u, f) ==> p in f)
    && Absent(f, k.misses(u, f))
    && k.inputs(u, f) != [] && HasRequired(k.inputs(u, f), unit.required)
    && (forall g: Texts {:trigger k.compile(u, g)} ::
          Agree(f, g, k.inputs(u, f)) && Absent(g, k.misses(u, f)) ==>
            && k.compile(u, g) == k.compile(u, f)
            && k.inputs(u, g) == k.inputs(u, f) && k.misses(u, g) == k.misses(u, f))
  }

  // ------------------------------------------------------------------ What holds after every step

  /** The object was made from these texts, and what has not been written since still has the text it had. */
  ghost predicate MadeFrom(k: Compiler, d: Disk, u: nat, f: Texts)
    requires Shaped(d) && u < 2
  {
    d.objects[u].Output? && d.dependencies[u].Some? ==>
      && k.compile(u, f) == Some(d.objects[u].text)
      && d.dependencies[u] == Some(k.inputs(u, f)) && d.missed[u] == k.misses(u, f)
      && forall p :: p in k.inputs(u, f) && p in d.files && d.files[p].time <= d.objects[u].time ==>
           p in f && d.files[p].text == f[p]
  }

  ghost predicate ObjectOk(k: Compiler, d: Disk, u: nat)
    requires Shaped(d) && u < 2
  {
    exists f: Texts :: MadeFrom(k, d, u, f)
  }

  predicate TimesOk(d: Disk)
    requires Shaped(d)
  {
    && (forall p :: p in d.files ==> d.files[p].time <= d.clock)
    && (forall u :: 0 <= u < 2 ==> TimeOf(d.objects[u]) <= d.clock && (d.objects[u].Output? ==> d.objects[u].time > 0))
    && TimeOf(d.exe) <= d.clock && (d.exe.Output? ==> d.exe.time > 0)
  }

  /** The executable is linked from the objects, unless one of them is newer or missing. */
  predicate ExeOk(k: Compiler, d: Disk)
    requires Shaped(d)
  {
    d.exe.Output? && d.objects[0].Output? && d.objects[1].Output? &&
    d.objects[0].time <= d.exe.time && d.objects[1].time <= d.exe.time ==>
      d.exe.text == k.link(d.objects[0].text, d.objects[1].text)
  }

  ghost predicate Inv(k: Compiler, d: Disk)
  {
    Shaped(d) && TimesOk(d) && ObjectOk(k, d, 0) && ObjectOk(k, d, 1) && ExeOk(k, d)
  }

  // ------------------------------------------------------------------ Proofs

  /** The object is what the compiler would make of the files as they are. */
  predicate Current(k: Compiler, d: Disk, u: nat)
    requires Shaped(d) && u < 2
  {
    d.objects[u].Output? && k.compile(u, TextsOf(d.files)) == Some(d.objects[u].text)
  }

  /** No file hides what the unit was made from: what the compiler missed is still missing. */
  predicate Unhidden(d: Disk, u: nat)
    requires Shaped(d) && u < 2
  {
    forall p :: p in d.missed[u] ==> p !in d.files
  }

  /** Each unit will be compiled, or nothing hides what it was made from. */
  predicate NothingHidden(d: Disk, units: seq<Unit>)
    requires Shaped(d) && |units| == 2
  {
    forall u: nat {:trigger Unhidden(d, u)} :: u < 2 ==> NeedsObject(d, units, u) || Unhidden(d, u)
  }

  /** The executable is what a clean build of the files as they are would give. */
  predicate IsClean(k: Compiler, d: Disk)
  {
    d.exe.Output? && CleanExe(k, d.files) == Some(d.exe.text)
  }

  /** An object that need not be built again, and that nothing hides, is what the compiler would make of the files as
      they are. */
  lemma UpToDate(k: Compiler, units: seq<Unit>, d: Disk, u: nat)
    requires |units| == 2 && u < 2 && Local(k, units) && Inv(k, d)
    requires !NeedsObject(d, units, u) && Unhidden(d, u)
    ensures Current(k, d, u)
  {
    var f: Texts :| MadeFrom(k, d, u, f);
    assert LocalAt(k, units[u], u, f);
    var g := TextsOf(d.files);
    forall p | p in k.inputs(u, f) ensures p in f && p in g && f[p] == g[p] {
      var i :| 0 <= i < |k.inputs(u, f)| && k.inputs(u, f)[i] == p;
    }
    assert Agree(f, g, k.inputs(u, f));
    assert Absent(g, k.misses(u, f));
  }

  lemma CompiledObject(k: Compiler, units: seq<Unit>, d: Disk, u: nat, o: Outcome)
    requires |units| == 2 && u < 2 && Local(k, units) && Inv(k, d)
    ensures ObjectOk(k, CompileUnit(k, d, u, o).0, u)
  {
    var d' := CompileUnit(k, d, u, o).0;
    var texts := TextsOf(d.files);
    if o.works && k.compile(u, texts).Some? {
      assert LocalAt(k, units[u], u, texts);
      assert MadeFrom(k, d', u, texts);
    } else {
      assert ObjectOk(k, d, u);
      var f: Texts :| MadeFrom(k, d, u, f);
      hide Local, TimesOk, ExeOk;
      assert MadeFrom(k, d', u, f);
    }
  }

  lemma OtherObject(k: Compiler, d: Disk, u: nat, o: Outcome)
    requires u < 2 && Inv(k, d)
    ensures ObjectOk(k, CompileUnit(k, d, u, o).0, 1 - u)
  {
    assert ObjectOk(k, d, 1 - u);
    var f: Texts :| MadeFrom(k, d, 1 - u, f);
    hide TimesOk, ExeOk, ObjectOk;
    assert MadeFrom(k, CompileUnit(k, d, u, o).0, 1 - u, f);
  }

  lemma CompiledOk(k: Compiler, units: seq<Unit>, d: Disk, u: nat, o: Outcome)
    requires |units| == 2 && u < 2 && Local(k, units) && Inv(k, d)
    ensures var r := CompileUnit(k, d, u, o);
            && Inv(k, r.0) && r.0.files == d.files && r.0.objects[1 - u] == d.objects[1 - u]
            && (r.1 ==> Current(k, r.0, u))
  {
    CompiledObject(k, units, d, u, o);
    OtherObject(k, d, u, o);
    hide ObjectOk, Local;
  }

  lemma CompiledIf(k: Compiler, units: seq<Unit>, d: Disk, u: nat, o: Outcome, needed: bool)
    requires |units| == 2 && u < 2 && Local(k, units) && Inv(k, d)
    ensures var r := CompileIf(k, d, u, o, needed);
            && Inv(k, r.0) && r.0.files == d.files && r.0.objects[1 - u] == d.objects[1 - u]
            && (r.1 && (needed || Current(k, d, u)) ==> Current(k, r.0, u))
  {
    if needed {
      CompiledOk(k, units, d, u, o);
    }
  }

  lemma LinkedOk(k: Compiler, d: Disk, a: Answers)
    requires Inv(k, d)
    ensures var r := Link(k, d, a);
            && Inv(k, r.0) && r.0.files == d.files
            && (r.1 ==> r.0.exe.Output? && d.objects[0].Output? && d.objects[1].Output? &&
                        r.0.exe.text == k.link(d.objects[0].text, d.objects[1].text))
  {
    var d' := Link(k, d, a).0;
    var f: Texts :| MadeFrom(k, d, 0, f);
    var g: Texts :| MadeFrom(k, d, 1, g);
    assert MadeFrom(k, d', 0, f) && MadeFrom(k, d', 1, g);
  }

  /** The two compilations, when what is needed has been decided. */
  lemma BothCompiled(k: Compiler, units: seq<Unit>, d: Disk, a: Answers)
    requires |units| == 2 == |a.units| && Local(k, units) && Inv(k, d)
    ensures var first := CompileIf(k, d, 0, a.units[0], NeedsObject(d, units, 0));
            var second := CompileIf(k, first.0, 1, a.units[1], NeedsObject(d, units, 1));
            && Inv(k, second.0) && second.0.files == d.files
            && (first.1 && second.1 && NothingHidden(d, units) ==>
                  Current(k, second.0, 0) && Current(k, second.0, 1))
  {
    var tools, tool := NeedsObject(d, units, 0), NeedsObject(d, units, 1);
    if !tools && Unhidden(d, 0) { UpToDate(k, units, d, 0); }
    if !tool && Unhidden(d, 1) { UpToDate(k, units, d, 1); }
    hide Inv, NeedsObject, Local, CompileIf, CompileUnit, Unhidden;
    CompiledIf(k, units, d, 0, a.units[0], tools);
    var first := CompileIf(k, d, 0, a.units[0], tools);
    assert first.0.objects[1] == d.objects[1];
    CompiledIf(k, units, first.0, 1, a.units[1], tool);
  }

  lemma UsableExe(k: Compiler, d: Disk)
    requires Inv(k, d) && !NeedsExe(d) && Current(k, d, 0) && Current(k, d, 1)
    ensures IsClean(k, d)
  {
  }

  lemma CompileAllOk(k: Compiler, units: seq<Unit>, d: Disk, a: Answers)
    requires |units| == 2 == |a.units| && Local(k, units) && Inv(k, d)
    ensures var r := CompileAll(k, units, d, a);
            Inv(k, r.0) && r.0.files == d.files && (r.1 && NothingHidden(d, units) ==> IsClean(k, r.0))
  {
    if a.hasCompiler {
      BothCompiled(k, units, d, a);
      var first := CompileIf(k, d, 0, a.units[0], NeedsObject(d, units, 0));
      var second := CompileIf(k, first.0, 1, a.units[1], NeedsObject(d, units, 1));
      hide Inv, NeedsObject, Local, CompileIf, Link, NeedsExe, NothingHidden;
      if first.1 && second.1 {
        if NeedsExe(second.0) {
          LinkedOk(k, second.0, a);
        } else if Current(k, second.0, 0) && Current(k, second.0, 1) {
          UsableExe(k, second.0);
        }
      }
    }
  }

  lemma IdleIsClean(k: Compiler, units: seq<Unit>, d: Disk)
    requires |units| == 2 && Local(k, units) && Inv(k, d) && Idle(d, units) && NothingHidden(d, units)
    ensures IsClean(k, d)
  {
    assert Unhidden(d, 0) && Unhidden(d, 1);
    UpToDate(k, units, d, 0);
    UpToDate(k, units, d, 1);
    UsableExe(k, d);
  }

  lemma BuildOk(k: Compiler, units: seq<Unit>, d: Disk, a: Answers)
    requires |units| == 2 == |a.units| && Local(k, units) && Inv(k, d)
    ensures var r := Build(k, units, d, a);
            Inv(k, r.0) && r.0.files == d.files && (r.1 && NothingHidden(d, units) ==> IsClean(k, r.0))
  {
    CompileAllOk(k, units, d, a);
    if Idle(d, units) && NothingHidden(d, units) {
      IdleIsClean(k, units, d);
    }
    hide Inv, CompileAll, Idle, Local, NothingHidden, IsClean;
  }

  lemma SourcesChange(k: Compiler, units: seq<Unit>, d: Disk, e: Step)
    requires |units| == 2 && !e.Make? && Inv(k, d)
    ensures Inv(k, Next(k, units, d, e))
  {
    var d' := Next(k, units, d, e);
    var f: Texts :| MadeFrom(k, d, 0, f);
    var g: Texts :| MadeFrom(k, d, 1, g);
    assert MadeFrom(k, d', 0, f) && MadeFrom(k, d', 1, g);
  }

  lemma EmptyOk(k: Compiler)
    ensures Inv(k, EmptyDisk())
  {
    assert MadeFrom(k, EmptyDisk(), 0, map[]) && MadeFrom(k, EmptyDisk(), 1, map[]);
  }

  lemma {:induction false} RunOk(k: Compiler, units: seq<Unit>, d: Disk, steps: seq<Step>)
    requires |units| == 2 && Local(k, units) && Inv(k, d) && forall e :: e in steps ==> Sensible(e)
    ensures Inv(k, Run(k, units, d, steps))
    decreases |steps|
  {
    if steps != [] {
      assert steps[0] in steps;
      if steps[0].Make? {
        BuildOk(k, units, d, steps[0].a);
      } else {
        SourcesChange(k, units, d, steps[0]);
      }
      hide Inv, Local, Build;
      RunOk(k, units, Next(k, units, d, steps[0]), steps[1..]);
    }
  }

  /** Over every history of writing and removing sources and of builds that succeed or fail: when a build says that it
      has succeeded, and no file has appeared that a unit which it does not compile was looking for, the executable is
      what a clean build of the sources as they are would give. */
  lemma IncrementalIsClean(k: Compiler, units: seq<Unit>, steps: seq<Step>, a: Answers)
    requires |units| == 2 == |a.units| && Local(k, units) && forall e :: e in steps ==> Sensible(e)
    ensures var d := Run(k, units, EmptyDisk(), steps);
            var r := Build(k, units, d, a);
            r.0.files == d.files && (r.1 && NothingHidden(d, units) ==> IsClean(k, r.0))
  {
    EmptyOk(k);
    RunOk(k, units, EmptyDisk(), steps);
    BuildOk(k, units, Run(k, units, EmptyDisk(), steps), a);
  }

  // ------------------------------------------------------------------ When nothing is ever hidden

  /** No step writes what the compiler looked for and did not find when one of the units was last compiled. */
  predicate HidesNothing(k: Compiler, units: seq<Unit>, d: Disk, steps: seq<Step>)
    requires Shaped(d) && |units| == 2 && forall e :: e in steps ==> Sensible(e)
    decreases |steps|
  {
    steps == [] ||
    (&& (steps[0].Write? ==> steps[0].path !in d.missed[0] && steps[0].path !in d.missed[1])
     && HidesNothing(k, units, Next(k, units, d, steps[0]), steps[1..]))
  }

  lemma CompilingUnhidden(k: Compiler, units: seq<Unit>, d: Disk, u: nat, o: Outcome, needed: bool)
    requires |units| == 2 && u < 2 && Local(k, units) && Shaped(d) && Unhidden(d, 0) && Unhidden(d, 1)
    ensures var d' := CompileIf(k, d, u, o, needed).0;
            Unhidden(d', 0) && Unhidden(d', 1)
  {
    var texts := TextsOf(d.files);
    if needed && o.works && k.compile(u, texts).Some? {
      assert LocalAt(k, units[u], u, texts);
      assert Absent(texts, k.misses(u, texts));
    }
    hide Local;
  }

  lemma BuildUnhidden(k: Compiler, units: seq<Unit>, d: Disk, a: Answers)
    requires |units| == 2 == |a.units| && Local(k, units) && Shaped(d) && Unhidden(d, 0) && Unhidden(d, 1)
    ensures var d' := Build(k, units, d, a).0;
            Unhidden(d', 0) && Unhidden(d', 1)
  {
    hide Local, NeedsObject, CompileIf, NeedsExe;
    if a.hasCompiler {
      CompilingUnhidden(k, units, d, 0, a.units[0], NeedsObject(d, units, 0));
      var first := CompileIf(k, d, 0, a.units[0], NeedsObject(d, units, 0)).0;
      CompilingUnhidden(k, units, first, 1, a.units[1], NeedsObject(d, units, 1));
    }
  }

  lemma {:induction false} RunUnhidden(k: Compiler, units: seq<Unit>, d: Disk, steps: seq<Step>)
    requires |units| == 2 && Local(k, units) && Shaped(d) && forall e :: e in steps ==> Sensible(e)
    requires Unhidden(d, 0) && Unhidden(d, 1) && HidesNothing(k, units, d, steps)
    ensures var d' := Run(k, units, d, steps);
            Unhidden(d', 0) && Unhidden(d', 1)
    decreases |steps|
  {
    if steps != [] {
      assert steps[0] in steps;
      var d' := Next(k, units, d, steps[0]);
      if steps[0].Make? {
        BuildUnhidden(k, units, d, steps[0].a);
      }
      assert Unhidden(d', 0) && Unhidden(d', 1);
      hide Local, Build, Unhidden;
      RunUnhidden(k, units, d', steps[1..]);
    }
  }

  /** When no step of the history hides anything, every successful build is clean. */
  lemma CleanWhileNothingHides(k: Compiler, units: seq<Unit>, steps: seq<Step>, a: Answers)
    requires |units| == 2 == |a.units| && Local(k, units) && forall e :: e in steps ==> Sensible(e)
    requires HidesNothing(k, units, EmptyDisk(), steps)
    ensures var r := Build(k, units, Run(k, units, EmptyDisk(), steps), a);
            r.1 ==> IsClean(k, r.0)
  {
    IncrementalIsClean(k, units, steps, a);
    RunUnhidden(k, units, EmptyDisk(), steps);
    hide Run, Local, Build, HidesNothing, IsClean;
  }

  // ------------------------------------------------------------------ Nothing is built twice

  /** The sources that are checked exist. */
  predicate HasSources(d: Disk, units: seq<Unit>)
  {
    forall u, i :: 0 <= u < |units| && 0 <= i < |units[u].sources| ==> units[u].sources[i] in d.files
  }

  lemma CompiledIsUpToDate(k: Compiler, units: seq<Unit>, d: Disk, u: nat, o: Outcome)
    requires |units| == 2 && u < 2 && Local(k, units) && Inv(k, d) && HasSources(d, units) && CompileUnit(k, d, u, o).1
    ensures !NeedsObject(CompileUnit(k, d, u, o).0, units, u)
  {
    var texts := TextsOf(d.files);
    assert LocalAt(k, units[u], u, texts);
    assert forall i :: 0 <= i < |k.inputs(u, texts)| ==> k.inputs(u, texts)[i] in k.inputs(u, texts);
    hide ObjectOk, ExeOk;
  }

  lemma OtherStays(k: Compiler, units: seq<Unit>, d: Disk, u: nat, o: Outcome)
    requires |units| == 2 && u < 2 && Shaped(d)
    ensures NeedsObject(CompileUnit(k, d, u, o).0, units, 1 - u) == NeedsObject(d, units, 1 - u)
  {
  }

  lemma LinkedIsUpToDate(k: Compiler, units: seq<Unit>, d: Disk, a: Answers)
    requires |units| == 2 && Inv(k, d) && Link(k, d, a).1
    ensures var d' := Link(k, d, a).0;
            !NeedsExe(d') && forall u: nat :: u < 2 ==> NeedsObject(d', units, u) == NeedsObject(d, units, u)
  {
  }

  lemma CompileAllIsUpToDate(k: Compiler, units: seq<Unit>, d: Disk, a: Answers)
    requires |units| == 2 == |a.units| && Local(k, units) && Inv(k, d) && HasSources(d, units) &&
             CompileAll(k, units, d, a).1
    ensures var d' := CompileAll(k, units, d, a).0;
            Idle(d', units)
  {
    var tools, tool := NeedsObject(d, units, 0), NeedsObject(d, units, 1);
    BothCompiled(k, units, d, a);
    if tools {
      CompiledOk(k, units, d, 0, a.units[0]);
      CompiledIsUpToDate(k, units, d, 0, a.units[0]);
      OtherStays(k, units, d, 0, a.units[0]);
    }
    var first := CompileIf(k, d, 0, a.units[0], tools).0;
    if tool {
      CompiledIsUpToDate(k, units, first, 1, a.units[1]);
      OtherStays(k, units, first, 1, a.units[1]);
    }
    var second := CompileIf(k, first, 1, a.units[1], tool).0;
    hide Inv, NeedsObject, Local, CompileUnit, Link, NeedsExe, HasSources;
    if NeedsExe(second) {
      LinkedIsUpToDate(k, units, second, a);
    }
  }

  /** A build that follows a successful one changes nothing and needs no compiler. */
  lemma SecondBuildIsIdle(k: Compiler, units: seq<Unit>, steps: seq<Step>, a: Answers, b: Answers)
    requires |units| == 2 == |a.units| == |b.units| && Local(k, units) && forall e :: e in steps ==> Sensible(e)
    requires HasSources(Run(k, units, EmptyDisk(), steps), units)
    ensures var r := Build(k, units, Run(k, units, EmptyDisk(), steps), a);
            r.1 ==> Build(k, units, r.0, b) == (r.0, true)
  {
    EmptyOk(k);
    RunOk(k, units, EmptyDisk(), steps);
    var d := Run(k, units, EmptyDisk(), steps);
    hide Run, Local, Inv, NeedsObject, NeedsExe, CompileAll, HasSources;
    if !Idle(d, units) && CompileAll(k, units, d, a).1 {
      CompileAllIsUpToDate(k, units, d, a);
    }
  }

  // --------------------------------------------------------------- When a build succeeds, and what a failed one leaves

  /** The compiler can do what is asked of it for this unit. */
  predicate Compiles(k: Compiler, d: Disk, a: Answers, u: nat)
    requires |a.units| == 2 && u < 2
  {
    a.hasCompiler && a.units[u].works && k.compile(u, TextsOf(d.files)).Some?
  }

  /** A unit that is compiled has a later time stamp than the executable; one that is not has an object. */
  lemma CompilesIf(k: Compiler, units: seq<Unit>, d: Disk, a: Answers, u: nat)
    requires Shaped(d) && TimesOk(d) && |units| == 2 == |a.units| && u < 2 && a.hasCompiler
    ensures var needed := NeedsObject(d, units, u);
            var r := CompileIf(k, d, u, a.units[u], needed);
            && (r.1 <==> needed ==> Compiles(k, d, a, u)) && TimesOk(r.0) && r.0.exe == d.exe && r.0.files == d.files
            && (r.1 ==> r.0.objects[u].Output? && (needed ==> TimeOf(r.0.objects[u]) > TimeOf(r.0.exe)))
            && (!needed ==> r.0 == d)
            && r.0.objects[1 - u] == d.objects[1 - u] && r.0.dependencies[1 - u] == d.dependencies[1 - u]
  {
  }

  lemma CompileAllExactly(k: Compiler, units: seq<Unit>, d: Disk, a: Answers)
    requires Shaped(d) && TimesOk(d) && |units| == 2 == |a.units| && !Idle(d, units)
    ensures CompileAll(k, units, d, a).1 <==>
              && a.hasCompiler && a.links
              && forall u: nat :: u < 2 && NeedsObject(d, units, u) ==> Compiles(k, d, a, u)
  {
    if a.hasCompiler {
      var tools, tool := NeedsObject(d, units, 0), NeedsObject(d, units, 1);
      CompilesIf(k, units, d, a, 0);
      var first := CompileIf(k, d, 0, a.units[0], tools);
      OtherNeeds(k, units, d, a.units[0], 0, tools);
      CompilesIf(k, units, first.0, a, 1);
      var second := CompileIf(k, first.0, 1, a.units[1], tool);
      hide NeedsObject, CompileIf, TimesOk;
      assert first.1 ==> second.0.objects[0].Output?;
    }
  }

  lemma OtherNeeds(k: Compiler, units: seq<Unit>, d: Disk, o: Outcome, u: nat, needed: bool)
    requires Shaped(d) && |units| == 2 && u < 2
    ensures var d' := CompileIf(k, d, u, o, needed).0;
            NeedsObject(d', units, 1 - u) == NeedsObject(d, units, 1 - u) && d'.files == d.files
  {
    OtherStays(k, units, d, u, o);
    hide NeedsObject;
  }

  /** A build succeeds if and only if there is nothing to do, or there is a compiler, it can compile each unit that
      needs it, and it can link. */
  lemma BuildSucceedsExactly(k: Compiler, units: seq<Unit>, d: Disk, a: Answers)
    requires Shaped(d) && TimesOk(d) && |units| == 2 == |a.units|
    ensures Build(k, units, d, a).1 <==>
              || Idle(d, units)
              || (&& a.hasCompiler && a.links
                  && forall u: nat :: u < 2 && NeedsObject(d, units, u) ==> Compiles(k, d, a, u))
  {
    hide TimesOk, NeedsObject, CompileAll, Compiles;
    if !Idle(d, units) {
      CompileAllExactly(k, units, d, a);
    }
  }

  /** Over every history: when nothing is hidden and each unit that needs it compiles, a build with a compiler that
      works leaves the clean executable, whatever has been edited and whatever has failed before. */
  lemma WorkingBuildIsClean(k: Compiler, units: seq<Unit>, steps: seq<Step>, a: Answers)
    requires |units| == 2 == |a.units| && Local(k, units) && forall e :: e in steps ==> Sensible(e)
    requires var d := Run(k, units, EmptyDisk(), steps);
             && NothingHidden(d, units) && a.hasCompiler && a.links
             && forall u: nat :: u < 2 && NeedsObject(d, units, u) ==> Compiles(k, d, a, u)
    ensures var r := Build(k, units, Run(k, units, EmptyDisk(), steps), a); r.1 && IsClean(k, r.0)
  {
    EmptyOk(k);
    RunOk(k, units, EmptyDisk(), steps);
    IncrementalIsClean(k, units, steps, a);
    var d := Run(k, units, EmptyDisk(), steps);
    hide Run, Local, Build, NothingHidden, IsClean, NeedsObject;
    BuildSucceedsExactly(k, units, d, a);
  }

  /** What is left to compile after a build: exactly the units that needed it and could not be compiled. */
  lemma LeavesUnbuilt(k: Compiler, units: seq<Unit>, d: Disk, a: Answers, u: nat)
    requires |units| == 2 == |a.units| && u < 2 && Local(k, units) && Inv(k, d) && HasSources(d, units)
    ensures NeedsObject(Build(k, units, d, a).0, units, u) <==> NeedsObject(d, units, u) && !Compiles(k, d, a, u)
  {
    assert Shaped(d);
    if a.hasCompiler {
      BothLeft(k, units, d, a);
      var first := CompileIf(k, d, 0, a.units[0], NeedsObject(d, units, 0)).0;
      var second := CompileIf(k, first, 1, a.units[1], NeedsObject(d, units, 1)).0;
      LinkNeeds(k, units, second, a);
    }
    hide NeedsObject, CompileIf, Inv, Local, Link, HasSources, NeedsExe, Compiles;
    assert u == 0 || u == 1;
  }

  lemma BothLeft(k: Compiler, units: seq<Unit>, d: Disk, a: Answers)
    requires |units| == 2 == |a.units| && Local(k, units) && Inv(k, d) && HasSources(d, units) && a.hasCompiler
    ensures var first := CompileIf(k, d, 0, a.units[0], NeedsObject(d, units, 0)).0;
            var second := CompileIf(k, first, 1, a.units[1], NeedsObject(d, units, 1)).0;
            && (NeedsObject(second, units, 0) <==> NeedsObject(d, units, 0) && !Compiles(k, d, a, 0))
            && (NeedsObject(second, units, 1) <==> NeedsObject(d, units, 1) && !Compiles(k, d, a, 1))
  {
    assert Shaped(d);
    hide NeedsObject, CompileIf, Inv, Local, HasSources;
    var tools, tool := NeedsObject(d, units, 0), NeedsObject(d, units, 1);
    UnitLeft(k, units, d, a, 0);
    OtherNeeds(k, units, d, a.units[0], 0, tools);
    CompiledIf(k, units, d, 0, a.units[0], tools);
    var first := CompileIf(k, d, 0, a.units[0], tools).0;
    SourcesStay(d, first, units);
    UnitLeft(k, units, first, a, 1);
    OtherNeeds(k, units, first, a.units[1], 1, tool);
  }

  lemma SourcesStay(d: Disk, d': Disk, units: seq<Unit>)
    requires HasSources(d, units) && d'.files == d.files
    ensures HasSources(d', units)
  {
  }

  lemma UnitLeft(k: Compiler, units: seq<Unit>, d: Disk, a: Answers, u: nat)
    requires |units| == 2 == |a.units| && u < 2 && Local(k, units) && Inv(k, d) && HasSources(d, units) && a.hasCompiler
    ensures var needed := NeedsObject(d, units, u);
            var d' := CompileIf(k, d, u, a.units[u], needed).0;
            NeedsObject(d', units, u) <==> needed && !Compiles(k, d, a, u)
  {
    var needed := NeedsObject(d, units, u);
    if needed && Compiles(k, d, a, u) {
      CompiledIsUpToDate(k, units, d, u, a.units[u]);
    }
    hide Local, Inv, HasSources;
  }

  lemma LinkNeeds(k: Compiler, units: seq<Unit>, d: Disk, a: Answers)
    requires Shaped(d) && |units| == 2
    ensures forall u: nat :: u < 2 ==> NeedsObject(Link(k, d, a).0, units, u) == NeedsObject(d, units, u)
  {
  }

  // ------------------------------------------------------------------ Where it fails

  /** A file that the object was made from is given another text and another time. The build notices exactly if the
      time is later than that of the object. */
  lemma NoticedExactly(units: seq<Unit>, d: Disk, u: nat, p: Path, text: Text, time: nat)
    requires Shaped(d) && |units| == 2 && u < 2 && !NeedsObject(d, units, u)
    requires p in Listed(d.dependencies[u]) || p in units[u].sources
    ensures NeedsObject(d.(files := d.files[p := File(time, text)]), units, u) <==> time > TimeOf(d.objects[u])
  {
    var d' := d.(files := d.files[p := File(time, text)]);
    var paths := Listed(d.dependencies[u]);
    if p in paths {
      var i :| 0 <= i < |paths| && paths[i] == p;
      assert time > TimeOf(d.objects[u]) ==> AnyNewer(d'.files, paths, TimeOf(d.objects[u]));
    } else {
      var i :| 0 <= i < |units[u].sources| && units[u].sources[i] == p;
      assert time > TimeOf(d.objects[u]) ==> AnyNewer(d'.files, units[u].sources, TimeOf(d.objects[u]));
    }
  }

  predicate Knows(d: Disk, units: seq<Unit>, u: nat, p: Path)
    requires Shaped(d) && |units| == 2 && u < 2
  {
    p in Listed(d.dependencies[u]) || p in units[u].sources
  }

  /** A file is written when nothing has to be built. A unit is compiled again exactly if it lists or checks the
      path. */
  lemma WriteIsNoticed(k: Compiler, units: seq<Unit>, d: Disk, u: nat, p: Path, text: Text)
    requires Shaped(d) && TimesOk(d) && |units| == 2 && u < 2 && !NeedsObject(d, units, u)
    ensures NeedsObject(Next(k, units, d, Write(p, text)), units, u) <==> Knows(d, units, u, p)
  {
    if Knows(d, units, u, p) {
      NoticedExactly(units, d, u, p, text, d.clock + 1);
    }
  }

  /** A file is removed when nothing has to be built. Every other file stays, and a unit is compiled again exactly if it
      lists or checks the path. */
  lemma RemoveIsNoticed(k: Compiler, units: seq<Unit>, d: Disk, u: nat, p: Path)
    requires Shaped(d) && |units| == 2 && u < 2 && !NeedsObject(d, units, u)
    ensures var d' := Next(k, units, d, Remove(p));
            && d'.files == d.files - {p} && d' == d.(files := d'.files)
            && (NeedsObject(d', units, u) <==> Knows(d, units, u, p))
  {
    var d' := Next(k, units, d, Remove(p));
    if i :| 0 <= i < |units[u].sources| && units[u].sources[i] == p {
      assert p !in d'.files;
      assert AnyNewer(d'.files, units[u].sources, TimeOf(d.objects[u]));
    } else if i :| 0 <= i < |Listed(d.dependencies[u])| && Listed(d.dependencies[u])[i] == p {
      assert p !in d'.files;
      assert AnyNewer(d'.files, Listed(d.dependencies[u]), TimeOf(d.objects[u]));
    }
  }

  lemma StaysIdle(k: Compiler, units: seq<Unit>, d: Disk, p: Path, text: Text)
    requires Shaped(d) && TimesOk(d) && |units| == 2 && Idle(d, units)
    requires !Knows(d, units, 0, p) && !Knows(d, units, 1, p)
    ensures Idle(Next(k, units, d, Write(p, text)), units)
  {
    WriteIsNoticed(k, units, d, 0, p, text);
    WriteIsNoticed(k, units, d, 1, p, text);
    hide NeedsObject, Knows, TimesOk;
  }

  lemma StaysUnhidden(d: Disk, u: nat, p: Path, text: Text)
    requires Shaped(d) && u < 2 && Unhidden(d, u) && p !in d.missed[u]
    ensures Unhidden(d.(files := d.files[p := File(d.clock + 1, text)], clock := d.clock + 1), u)
  {
  }

  lemma StaysClean(k: Compiler, units: seq<Unit>, d: Disk, p: Path, text: Text)
    requires |units| == 2 && Local(k, units) && Inv(k, d) && Idle(d, units) && NothingHidden(d, units)
    requires Idle(Next(k, units, d, Write(p, text)), units) && p !in d.missed[0] && p !in d.missed[1]
    ensures IsClean(k, Next(k, units, d, Write(p, text)))
  {
    hide Inv, Local, NeedsObject, NeedsExe, IsClean, Unhidden;
    var d' := Next(k, units, d, Write(p, text));
    SourcesChange(k, units, d, Write(p, text));
    assert Unhidden(d, 0) && Unhidden(d, 1);
    StaysUnhidden(d, 0, p, text);
    StaysUnhidden(d, 1, p, text);
    IdleIsClean(k, units, d');
  }

  /** A file that neither unit lists or checks is written when nothing has to be built. The build does nothing, and the
      executable is right if and only if a clean build gives the same as before; that is so unless the compiler looked
      for the file. */
  lemma HidingExact(k: Compiler, units: seq<Unit>, d: Disk, p: Path, text: Text, a: Answers)
    requires |units| == 2 == |a.units| && Local(k, units) && Inv(k, d)
    requires Idle(d, units) && NothingHidden(d, units)
    requires !Knows(d, units, 0, p) && !Knows(d, units, 1, p)
    ensures var d' := Next(k, units, d, Write(p, text));
            && Build(k, units, d', a) == (d', true)
            && (IsClean(k, d') <==> CleanExe(k, d'.files) == CleanExe(k, d.files))
            && (p !in d.missed[0] && p !in d.missed[1] ==> IsClean(k, d'))
  {
    var d' := Next(k, units, d, Write(p, text));
    StaysIdle(k, units, d, p, text);
    IdleIsClean(k, units, d);
    hide Inv, Local, NeedsObject, NeedsExe, Knows, CleanExe, CompileAll, NothingHidden;
    if p !in d.missed[0] && p !in d.missed[1] {
      StaysClean(k, units, d, p, text);
    }
  }

  /** A compiler that looks for a header in two directories. */
  function Searching(): Compiler
  {
    Compiler(
      (u, f) => if "a/h" in f then ["m", "a/h"] else ["m", "b/h"],
      (u, f) => if "a/h" in f then [] else ["a/h"],
      (u, f) =>
        if "m" !in f then None
        else if "a/h" in f then Some(f["a/h"])
        else if "b/h" in f then Some(f["b/h"])
        else None,
      (x, y) => x + y)
  }

  function OneSource(): Unit
  {
    Unit(["m"], ["m"])
  }

  lemma SearchingIsLocal()
    ensures Local(Searching(), [OneSource(), OneSource()])
  {
    var k := Searching();
    forall u: nat, f: Texts | u < 2 && k.compile(u, f).Some? ensures LocalAt(k, OneSource(), u, f) {
      assert "m" in f && k.inputs(u, f)[0] == "m" && k.inputs(u, f)[1] in f;
      forall g: Texts | Agree(f, g, k.inputs(u, f)) && Absent(g, k.misses(u, f))
        ensures && k.compile(u, g) == k.compile(u, f)
                && k.inputs(u, g) == k.inputs(u, f) && k.misses(u, g) == k.misses(u, f)
      {
        if "a/h" !in f {
          assert "a/h" in k.misses(u, f) && "b/h" in k.inputs(u, f);
        } else {
          assert "a/h" in k.inputs(u, f);
        }
        assert "m" in k.inputs(u, f);
      }
    }
  }

  function AllWorks(): Answers
  {
    Answers(true, [Outcome(true, true, true), Outcome(true, true, true)], true, true)
  }

  /** The disk after the source and one header are written. */
  function Fresh(x: Text): Disk
  {
    Disk(map["m" := File(1, ""), "b/h" := File(2, x)], [Missing, Missing], [None, None], [[], []], Missing, 2)
  }

  /** ... after a build. */
  function Built(x: Text): Disk
  {
    Fresh(x).(objects := [Output(3, x), Output(4, x)], dependencies := [Some(["m", "b/h"]), Some(["m", "b/h"])],
              missed := [["a/h"], ["a/h"]], exe := Output(5, x + x), clock := 5)
  }

  lemma FirstBuild(x: Text)
    ensures Build(Searching(), [OneSource(), OneSource()], Fresh(x), AllWorks()) == (Built(x), true)
  {
    var k, units, a := Searching(), [OneSource(), OneSource()], AllWorks();
    var d := Fresh(x);
    assert TextsOf(d.files) == map["m" := "", "b/h" := x];
    var first := CompileUnit(k, d, 0, a.units[0]).0;
    assert first == d.(objects := [Output(3, x), Missing], dependencies := [Some(["m", "b/h"]), None],
                       missed := [["a/h"], []], clock := 3);
    var second := CompileUnit(k, first, 1, a.units[1]).0;
    assert second == d.(objects := [Output(3, x), Output(4, x)],
                        dependencies := [Some(["m", "b/h"]), Some(["m", "b/h"])],
                        missed := [["a/h"], ["a/h"]], clock := 4);
    assert Link(k, second, a).0 == Built(x);
  }

  /** ... and after another header that hides the first. */
  function Hidden(x: Text, y: Text): Disk
  {
    Built(x).(files := map["m" := File(1, ""), "b/h" := File(2, x), "a/h" := File(6, y)], clock := 6)
  }

  function HidingSteps(x: Text, y: Text): seq<Step>
  {
    [Write("m", ""), Write("b/h", x), Make(AllWorks()), Write("a/h", y)]
  }

  lemma HiddenRun(x: Text, y: Text)
    ensures Run(Searching(), [OneSource(), OneSource()], EmptyDisk(), HidingSteps(x, y)) == Hidden(x, y)
  {
    var k, units := Searching(), [OneSource(), OneSource()];
    var steps := HidingSteps(x, y);
    FirstBuild(x);
    hide Build, Searching;
    var d1 := Next(k, units, EmptyDisk(), steps[0]);
    assert Next(k, units, d1, steps[1]) == Fresh(x);
    assert steps[1..][1..] == steps[2..] && steps[2..][1..] == steps[3..] && steps[3..][1..] == [];
    assert Run(k, units, EmptyDisk(), steps) == Run(k, units, d1, steps[1..]) == Run(k, units, Fresh(x), steps[2..]);
    assert Run(k, units, Fresh(x), steps[2..]) == Run(k, units, Built(x), steps[3..]);
    assert Next(k, units, Built(x), steps[3]) == Hidden(x, y);
    assert Run(k, units, Built(x), steps[3..]) == Run(k, units, Hidden(x, y), []) == Hidden(x, y);
  }

  /** That nothing hides is needed, whatever the two headers hold: when a new file hides one that the compiler has read,
      the build says that all is up to date, and it is right only if the two files are the same. */
  lemma HidingBreaks(x: Text, y: Text)
    ensures var k, units := Searching(), [OneSource(), OneSource()];
            var d := Run(k, units, EmptyDisk(), HidingSteps(x, y));
            var r := Build(k, units, d, AllWorks());
            Local(k, units) && r.1 && (IsClean(k, r.0) <==> x == y)
  {
    SearchingIsLocal();
    HiddenRun(x, y);
    hide Run, Local;
    var k, units, d := Searching(), [OneSource(), OneSource()], Hidden(x, y);
    assert !NeedsObject(d, units, 0) && !NeedsObject(d, units, 1) && !NeedsExe(d);
    assert TextsOf(d.files) == map["m" := "", "b/h" := x, "a/h" := y];
    assert CleanExe(k, d.files) == Some(y + y);
    if x + x == y + y {
      assert |x + x| == |x| + |x| && |y + y| == |y| + |y|;
      assert x == (x + x)[..|x|] && y == (y + y)[..|y|];
    }
  }

  // ------------------------------------------------------------------ The build program

  /** The disk as the build finds and leaves it. */
  class BootstrapBuild {
    const compiler: Compiler
    const units: seq<Unit>
    var files: map<Path, File>
    var objects: seq<Output>
    var dependencies: seq<Option<seq<Path>>>
    ghost var missed: seq<seq<Path>>
    var exe: Output
    var clock: nat

    ghost function Value(): Disk
      reads this
    {
      Disk(files, objects, dependencies, missed, exe, clock)
    }

    constructor (compiler: Compiler, units: seq<Unit>)
      ensures Value() == EmptyDisk() && this.compiler == compiler && this.units == units
      ensures Inv(compiler, Value())
    {
      this.compiler, this.units := compiler, units;
      files, objects, dependencies, exe, clock := map[], [Missing, Missing], [None, None], Missing, 0;
      missed := [[], []];
      EmptyOk(compiler);
    }

    method CheckNeedsRebuild(time: nat, sources: seq<Path>, paths: seq<Path>) returns (needed: bool)
      ensures needed == (AnyNewer(files, sources, time) || AnyNewer(files, paths, time))
    {
      var i := 0;
      while i < |sources|
        invariant i <= |sources| && !AnyNewer(files, sources[..i], time)
      {
        assert sources[..i + 1] == sources[..i] + [sources[i]];
        if sources[i] !in files || files[sources[i]].time > time {
          return true;
        }
        i := i + 1;
      }
      assert sources[..i] == sources;
      i := 0;
      while i < |paths|
        invariant i <= |paths| && !AnyNewer(files, paths[..i], time)
      {
        assert paths[..i + 1] == paths[..i] + [paths[i]];
        if paths[i] !in files || files[paths[i]].time > time {
          return true;
        }
        i := i + 1;
      }
      assert paths[..i] == paths;
      return false;
    }

    method ContainRequired(paths: seq<Path>, required: seq<Path>) returns (all: bool)
      ensures all == (paths != [] && HasRequired(paths, required))
    {
      if paths == [] {
        return false;
      }
      var i := 0;
      while i < |required|
        invariant i <= |required| && forall j :: 0 <= j < i ==> required[j] in paths
      {
        if required[i] !in paths {
          return false;
        }
        i := i + 1;
      }
      return true;
    }

    method NeedsRebuildObject(u: nat) returns (needed: bool)
      requires Shaped(Value()) && u < 2 == |units|
      ensures needed == NeedsObject(Value(), units, u)
    {
      var time := TimeOf(objects[u]);
      if time == 0 {
        return true;
      }
      var paths := Listed(dependencies[u]);
      var listed := ContainRequired(paths, units[u].required);
      if !listed {
        return true;
      }
      needed := CheckNeedsRebuild(time, units[u].sources, paths);
    }

    method NeedsRebuildExe() returns (needed: bool)
      requires Shaped(Value())
      ensures needed == NeedsExe(Value())
    {
      var time := TimeOf(exe);
      if time == 0 {
        return true;
      }
      return TimeOf(objects[0]) > time || TimeOf(objects[1]) > time;
    }

    method RunObjectCompilation(u: nat, o: Outcome) returns (ok: bool)
      requires Shaped(Value()) && u < 2
      modifies this
      ensures (Value(), ok) == CompileUnit(compiler, old(Value()), u, o)
    {
      var texts := TextsOf(files);
      var text := compiler.compile(u, texts);
      if o.works && text.Some? {
        clock := clock + 1;
        objects := objects[u := Output(clock, text.value)];
        dependencies := dependencies[u := Some(compiler.inputs(u, texts))];
        missed := missed[u := compiler.misses(u, texts)];
        return true;
      }
      if !o.keepsObject {
        objects := objects[u := Missing];
      }
      if !o.keepsDependencies {
        dependencies := dependencies[u := None];
      }
      assert old(objects)[u := old(objects)[u]] == old(objects);
      assert old(dependencies)[u := old(dependencies)[u]] == old(dependencies);
      return false;
    }

    method LinkObjects(a: Answers) returns (ok: bool)
      requires Shaped(Value())
      modifies this
      ensures (Value(), ok) == Link(compiler, old(Value()), a)
    {
      if a.links && objects[0].Output? && objects[1].Output? {
        clock := clock + 1;
        exe := Output(clock, compiler.link(objects[0].text, objects[1].text));
        return true;
      }
      if !a.keepsExe {
        exe := Missing;
      }
      return false;
    }

    method Compile(a: Answers) returns (ok: bool)
      requires Shaped(Value()) && |units| == 2 == |a.units|
      modifies this
      ensures (Value(), ok) == CompileAll(compiler, units, old(Value()), a)
    {
      hide CompileUnit, Link, NeedsObject, NeedsExe;
      if !a.hasCompiler {
        return false;
      }
      var tools := NeedsRebuildObject(0);
      var tool := NeedsRebuildObject(1);
      ok := true;
      if tools {
        ok := RunObjectCompilation(0, a.units[0]);
      }
      if tool {
        var compiled := RunObjectCompilation(1, a.units[1]);
        ok := ok && compiled;
      }
      if ok {
        var needed := NeedsRebuildExe();
        if needed {
          ok := LinkObjects(a);
        }
      }
    }

    method Make(a: Answers) returns (ok: bool)
      requires Shaped(Value()) && |units| == 2 == |a.units|
      modifies this
      ensures (Value(), ok) == Build(compiler, units, old(Value()), a)
      ensures old(TimesOk(Value())) ==>
                (ok <==>
                  || old(Idle(Value(), units))
                  || (&& a.hasCompiler && a.links
                      && forall u: nat :: u < 2 && old(NeedsObject(Value(), units, u)) ==>
                           old(Compiles(compiler, Value(), a, u))))
      ensures Local(compiler, units) && old(Inv(compiler, Value())) ==> Inv(compiler, Value())
      ensures Local(compiler, units) && old(Inv(compiler, Value()) && NothingHidden(Value(), units)) && ok ==>
                IsClean(compiler, Value())
    {
      hide CompileAll, NeedsObject, NeedsExe, Local, Inv, NothingHidden, IsClean;
      if Local(compiler, units) && Inv(compiler, Value()) {
        BuildOk(compiler, units, Value(), a);
      }
      if TimesOk(Value()) {
        BuildSucceedsExactly(compiler, units, Value(), a);
      }
      ghost var built := Build(compiler, units, Value(), a);
      var needed := NeedsRebuildObject(0);
      if !needed {
        needed := NeedsRebuildObject(1);
      }
      if !needed {
        needed := NeedsRebuildExe();
      }
      ok := true;
      if needed {
        ok := Compile(a);
      }
      assert (Value(), ok) == built;
    }
  }
}
