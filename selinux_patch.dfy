/** scripts/selinuxify_template_patch.py: adds the SELinux relabel option `Z` to every
    short-syntax volume of every service of the compose templates, unless the volume
    touches `/tmp` or already carries a label. Reading and writing the YAML files is
    not modelled: a template is the array of its services. */
module SelinuxPatch {
  import opened Wrappers
  import opened PyStr

  /** The parts of a volume that exclude it from relabelling. */
  const VolumeSkip: seq<string> := ["/tmp"]

  /** A volume entry: a short-syntax string, or any other entry (a long-syntax mapping),
      which is never touched. */
  datatype Volume = Bind(spec: string) | Mount(id: nat)

  /** A service of a template; `volumes` is None when it has no "volumes" key. */
  datatype Service = Service(name: string, volumes: Option<seq<Volume>>)

  /** One `:`-separated part that makes the whole volume be kept. */
  predicate SkipItem(item: string)
  {
    item in VolumeSkip || EndsWith(item, "Z")
  }

  /** A volume the script keeps as it is. */
  predicate Labelled(v: string)
  {
    var split := Split(v, ':');
    exists i :: 0 <= i < |split| && SkipItem(split[i])
  }

  /** The loop over the parts of a volume that sets `skip` and stops at the first part
      that is `/tmp` or ends in `Z`. */
  method IsSkipped(v: string) returns (skip: bool)
    ensures skip <==> Labelled(v)
  {
    var split := Split(v, ':');
    skip := false;
    var i := 0;
    while i < |split|
      invariant 0 <= i <= |split|
      invariant !skip
      invariant forall j :: 0 <= j < i ==> !SkipItem(split[j])
    {
      var item := split[i];
      if item in VolumeSkip {
        skip := true;
        break;
      }
      if EndsWith(item, "Z") {
        skip := true;
        break;
      }
      i := i + 1;
    }
  }

  /** The rewrite of one volume string: `:Z` after a `host:container` pair, `,Z` after
      anything else (one part, or options already present). */
  function Patched(v: string): (r: string)
    ensures Labelled(v) ==> r == v
    ensures !Labelled(v) && |Split(v, ':')| == 2 ==> r == v + ":Z"
    ensures !Labelled(v) && |Split(v, ':')| != 2 ==> r == v + ",Z"
  {
    if Labelled(v) then v
    else if |Split(v, ':')| == 2 then v + ":Z"
    else v + ",Z"
  }

  /** Whatever the rule produces, the script keeps on a second run: the last part of a
      rewritten volume ends in `Z`. */
  lemma PatchedIsLabelled(v: string)
    ensures Labelled(Patched(v))
  {
    if !Labelled(v) {
      var p := Split(v, ':');
      if |p| == 2 {
        SplitAppendSep(v, ':');
        SplitAppendChar(v + [':'], ':', 'Z');
        assert v + ":Z" == v + [':'] + ['Z'];
        var q := Split(v + ":Z", ':');
        assert q[|q| - 1] == "Z";
        assert SkipItem(q[|q| - 1]);
      } else {
        SplitAppendChar(v, ':', ',');
        SplitAppendChar(v + [','], ':', 'Z');
        assert v + ",Z" == v + [','] + ['Z'];
        var q := Split(v + ",Z", ':');
        assert q[|q| - 1] == p[|p| - 1] + [','] + ['Z'];
        assert SkipItem(q[|q| - 1]);
      }
    }
  }

  /** Applying the rule twice is applying it once. */
  lemma PatchedIdempotent(v: string)
    ensures Patched(Patched(v)) == Patched(v)
  {
    PatchedIsLabelled(v);
  }

  /** A volume entry after the rule: strings are rewritten, other entries kept. */
  function PatchEntry(v: Volume): Volume
  {
    if v.Bind? then Bind(Patched(v.spec)) else v
  }

  /** An entry the rule changes. */
  predicate Rewritten(v: Volume)
  {
    v.Bind? && !Labelled(v.spec)
  }

  function PatchAll(vols: seq<Volume>): (r: seq<Volume>)
    ensures |r| == |vols|
    ensures forall i :: 0 <= i < |vols| ==> r[i] == PatchEntry(vols[i])
  {
    seq(|vols|, i requires 0 <= i < |vols| => PatchEntry(vols[i]))
  }

  /** Some volume of the list is one the rule changes. */
  predicate AnyVolumeRewritten(vols: seq<Volume>)
  {
    exists i :: 0 <= i < |vols| && Rewritten(vols[i])
  }

  lemma AnyVolumeRewrittenSnoc(vols: seq<Volume>, v: Volume)
    ensures AnyVolumeRewritten(vols + [v]) <==> AnyVolumeRewritten(vols) || Rewritten(v)
  {
    if Rewritten(v) {
      assert (vols + [v])[|vols|] == v;
    }
    if AnyVolumeRewritten(vols) {
      var i :| 0 <= i < |vols| && Rewritten(vols[i]);
      assert (vols + [v])[i] == vols[i];
    }
    if AnyVolumeRewritten(vols + [v]) {
      var i :| 0 <= i < |vols + [v]| && Rewritten((vols + [v])[i]);
      if i < |vols| {
        assert vols[i] == (vols + [v])[i];
      }
    }
  }

  /** The inner loop over a service's volumes: builds `new_vols` and reports whether any
      volume was rewritten. */
  method PatchVolumes(vols: seq<Volume>) returns (newVols: seq<Volume>, changed: bool)
    ensures newVols == PatchAll(vols)
    ensures changed <==> AnyVolumeRewritten(vols)
  {
    newVols := [];
    changed := false;
    for i := 0 to |vols|
      invariant newVols == PatchAll(vols[..i])
      invariant changed <==> AnyVolumeRewritten(vols[..i])
    {
      AnyVolumeRewrittenSnoc(vols[..i], vols[i]);
      var v := vols[i];
      if v.Bind? {
        var skip := IsSkipped(v.spec);
        if !skip {
          v := if |Split(v.spec, ':')| == 2 then Bind(v.spec + ":Z") else Bind(v.spec + ",Z");
          changed := true;
        }
      }
      newVols := newVols + [v];
      assert vols[..i + 1] == vols[..i] + [vols[i]];
    }
    assert vols[..|vols|] == vols;
  }

  /** A second pass over patched volumes changes nothing. */
  lemma PatchAllIdempotent(vols: seq<Volume>)
    ensures PatchAll(PatchAll(vols)) == PatchAll(vols)
    ensures forall i :: 0 <= i < |vols| ==> !Rewritten(PatchAll(vols)[i])
  {
    forall i | 0 <= i < |vols|
      ensures PatchEntry(PatchEntry(vols[i])) == PatchEntry(vols[i]) && !Rewritten(PatchAll(vols)[i])
    {
      if vols[i].Bind? {
        PatchedIdempotent(vols[i].spec);
        PatchedIsLabelled(vols[i].spec);
      }
    }
  }

  function PatchService(s: Service): Service
  {
    if s.volumes.Some? then s.(volumes := Some(PatchAll(s.volumes.value))) else s
  }

  predicate ServiceRewritten(s: Service)
  {
    s.volumes.Some? && AnyVolumeRewritten(s.volumes.value)
  }

  function PatchServices(services: seq<Service>): (r: seq<Service>)
    ensures |r| == |services|
    ensures forall i :: 0 <= i < |services| ==> r[i] == PatchService(services[i])
  {
    seq(|services|, i requires 0 <= i < |services| => PatchService(services[i]))
  }

  /** Some service of the template has a volume the rule changes. */
  predicate AnyRewritten(services: seq<Service>)
  {
    exists i :: 0 <= i < |services| && ServiceRewritten(services[i])
  }

  /** The loop over the services of one template: each service with volumes gets the new
      list in place. */
  method PatchTemplate(services: array<Service>) returns (changed: bool)
    modifies services
    ensures services[..] == PatchServices(old(services[..]))
    ensures changed <==> AnyRewritten(old(services[..]))
  {
    ghost var original := services[..];
    changed := false;
    for i := 0 to services.Length
      invariant forall j :: 0 <= j < i ==> services[j] == PatchService(original[j])
      invariant forall j :: i <= j < services.Length ==> services[j] == original[j]
      invariant changed <==> AnyRewritten(original[..i])
    {
      AnyRewrittenSnoc(original[..i], original[i]);
      assert original[..i + 1] == original[..i] + [original[i]];
      var service := services[i];
      if service.volumes.Some? {
        var newVols, c := PatchVolumes(service.volumes.value);
        services[i] := service.(volumes := Some(newVols));
        changed := changed || c;
      }
    }
    assert original[..services.Length] == original;
  }

  lemma AnyRewrittenSnoc(services: seq<Service>, s: Service)
    ensures AnyRewritten(services + [s]) <==> AnyRewritten(services) || ServiceRewritten(s)
  {
    if ServiceRewritten(s) {
      assert (services + [s])[|services|] == s;
    }
    if AnyRewritten(services) {
      var i :| 0 <= i < |services| && ServiceRewritten(services[i]);
      assert (services + [s])[i] == services[i];
    }
    if AnyRewritten(services + [s]) {
      var i :| 0 <= i < |services + [s]| && ServiceRewritten((services + [s])[i]);
      if i < |services| {
        assert services[i] == (services + [s])[i];
      }
    }
  }

  /** The script's closing message. */
  function ResultMessage(changesMade: bool): string
  {
    if changesMade then "\U{2705} Templates updated with SELinux labels."
    else "\U{2705} All templates are already patched."
  }

  /** The whole script over its templates, each a distinct array: `changes_made` is set
      when any volume of any template was rewritten. */
  method PatchTemplates(templates: seq<array<Service>>) returns (changesMade: bool, message: string)
    requires forall i, j :: 0 <= i < j < |templates| ==> templates[i] != templates[j]
    modifies set t | t in templates
    ensures forall k :: 0 <= k < |templates| ==> templates[k][..] == PatchServices(old(templates[k][..]))
    ensures changesMade <==> exists k :: 0 <= k < |templates| && AnyRewritten(old(templates[k][..]))
    ensures message == ResultMessage(changesMade)
  {
    ghost var originals := seq(|templates|, m requires 0 <= m < |templates| reads set t | t in templates => templates[m][..]);
    changesMade := false;
    for k := 0 to |templates|
      invariant forall m :: 0 <= m < k ==> templates[m][..] == PatchServices(originals[m])
      invariant forall m :: k <= m < |templates| ==> templates[m][..] == originals[m]
      invariant changesMade <==> AnyTemplateRewritten(originals[..k])
    {
      AnyTemplateRewrittenSnoc(originals[..k], originals[k]);
      assert originals[..k + 1] == originals[..k] + [originals[k]];
      var c := PatchTemplate(templates[k]);
      changesMade := changesMade || c;
    }
    assert originals[..|templates|] == originals;
    message := ResultMessage(changesMade);
  }

  /** Some template of the list has a volume the rule changes. */
  predicate AnyTemplateRewritten(templates: seq<seq<Service>>)
  {
    exists k :: 0 <= k < |templates| && AnyRewritten(templates[k])
  }

  lemma AnyTemplateRewrittenSnoc(templates: seq<seq<Service>>, t: seq<Service>)
    ensures AnyTemplateRewritten(templates + [t]) <==> AnyTemplateRewritten(templates) || AnyRewritten(t)
  {
    if AnyRewritten(t) {
      assert (templates + [t])[|templates|] == t;
    }
    if AnyTemplateRewritten(templates) {
      var i :| 0 <= i < |templates| && AnyRewritten(templates[i]);
      assert (templates + [t])[i] == templates[i];
    }
    if AnyTemplateRewritten(templates + [t]) {
      var i :| 0 <= i < |templates + [t]| && AnyRewritten((templates + [t])[i]);
      if i < |templates| {
        assert templates[i] == (templates + [t])[i];
      }
    }
  }

  /** Running the script again over its own output changes nothing and says so. */
  lemma SecondRunChangesNothing(s: Service)
    ensures PatchService(PatchService(s)) == PatchService(s)
    ensures !ServiceRewritten(PatchService(s))
  {
    if s.volumes.Some? {
      PatchAllIdempotent(s.volumes.value);
    }
  }

  /** A second run of the script over a patched template leaves it as it is and reports
      that nothing changed. */
  lemma SecondRunReportsNoChange(services: seq<Service>)
    ensures PatchServices(PatchServices(services)) == PatchServices(services)
    ensures !AnyRewritten(PatchServices(services))
  {
    forall i | 0 <= i < |services|
      ensures PatchService(PatchService(services[i])) == PatchService(services[i])
      ensures !ServiceRewritten(PatchServices(services)[i])
    {
      SecondRunChangesNothing(services[i]);
    }
  }
}
