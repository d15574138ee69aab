/** The site-configuration sync of setup_nginx.py: validate the project
    descriptors, create a configuration body and an enabled link for every
    site that has neither yet, and, when something was created, test the
    configuration and restart nginx only if the test passes. */
module SetupNginx {
  import opened Json
  import opened Store

  /** Collaborators the sync calls but this model does not interpret:
      jinja2's `Template(body).render(subdomain=, domain=, port=)` (None when
      it raises), and Python's str() of the "name" value, which becomes the
      file name of both paths of a site. */
  datatype Runtime = Runtime(render: (Json, Json, Json, Json) -> Option<string>, str: Json -> string)

  /** Why validate_project accepted or rejected a descriptor; the source
      logs the reason and returns `v.Accepted?`. */
  datatype Verdict = Accepted | NotADict | MissingKey(key: string) | BadPort(port: Json)

  const RequiredKeys: seq<string> := ["name", "domain", "port"]

  /** The port test: a Python int (True and False included) in 1..65535. */
  predicate PortInRange(v: Json)
  {
    match AsInt(v)
    case Some(i) => 0 < i <= 65535
    case None => false
  }

  /** The loop over the required keys, stopping at the first failure. */
  function CheckKeys(fields: map<string, Json>, keys: seq<string>): Verdict
  {
    if keys == [] then Accepted
    else if keys[0] !in fields then MissingKey(keys[0])
    else if keys[0] == "port" && !PortInRange(fields["port"]) then BadPort(fields["port"])
    else CheckKeys(fields, keys[1..])
  }

  /** validate_project: a dict with "name", "domain" and "port", checked in
      that order, whose port is an int in 1..65535. */
  function ValidateProject(project: Json): (v: Verdict)
    ensures v.Accepted? <==>
      && project.JObject?
      && "name" in project.fields && "domain" in project.fields && "port" in project.fields
      && AsInt(project.fields["port"]).Some?
      && 1 <= AsInt(project.fields["port"]).value <= 65535
    ensures v == NotADict <==> !project.JObject?
    ensures v == MissingKey("name") <==> project.JObject? && "name" !in project.fields
    ensures v == MissingKey("domain") <==>
      project.JObject? && "name" in project.fields && "domain" !in project.fields
    ensures v == MissingKey("port") <==>
      && project.JObject? && "name" in project.fields && "domain" in project.fields
      && "port" !in project.fields
    ensures v.BadPort? <==>
      && project.JObject?
      && "name" in project.fields && "domain" in project.fields && "port" in project.fields
      && !(AsInt(project.fields["port"]).Some? && 1 <= AsInt(project.fields["port"]).value <= 65535)
    ensures v.BadPort? ==> v.port == project.fields["port"]
  {
    if project.JObject? then
      var fields := project.fields;
      assert RequiredKeys[1..] == ["domain", "port"] && ["domain", "port"][1..] == ["port"];
      assert CheckKeys(fields, ["port"]) ==
        if "port" !in fields then MissingKey("port")
        else if !PortInRange(fields["port"]) then BadPort(fields["port"])
        else Accepted;
      assert CheckKeys(fields, ["domain", "port"]) ==
        if "domain" !in fields then MissingKey("domain") else CheckKeys(fields, ["port"]);
      CheckKeys(fields, RequiredKeys)
    else
      NotADict
  }

  /** What create_nginx_config reads from a project without guarding it. */
  predicate Descriptor(project: Json)
  {
    project.JObject? && "name" in project.fields && "domain" in project.fields && "port" in project.fields
  }

  /** The file name of both paths of a project's site. */
  function SiteName(rt: Runtime, project: Json): string
    requires Descriptor(project)
  {
    rt.str(project.fields["name"])
  }

  /** Result of `templates.get(kind, {}).get("template")` followed by the
      `if not template_content` test. */
  datatype Lookup = Found(body: Json) | NotFound | LookupRaises

  function LookupTemplate(templates: Json, kind: string): Lookup
  {
    match templates
    case JObject(kinds) =>
      (match Get(kinds, kind, JObject(map[]))
       case JObject(entry) =>
         var t := Get(entry, "template", JNull);
         if Truthy(t) then Found(t) else NotFound
       case _ => LookupRaises)
    case _ => LookupRaises
  }

  /** The template kind: "subdomain" exactly when the key is present. */
  function Kind(project: Json): string
    requires project.JObject?
  {
    if "subdomain" in project.fields then "subdomain" else "rootdomain"
  }

  /** The rendered body of a project's site; the subdomain defaults to "". */
  function Render(rt: Runtime, project: Json, body: Json): Option<string>
    requires Descriptor(project)
  {
    rt.render(body, Get(project.fields, "subdomain", JString("")), project.fields["domain"], project.fields["port"])
  }

  /** How a call of create_nginx_config ends: it returns a bool, or an
      exception escapes it (a template lookup or render error, which the
      source does not catch). */
  datatype Outcome = Returns(changed: bool) | Raises

  /** create_nginx_config on a state of the two directories: the new state
      and the outcome. */
  function Create(fs: Fs, env: Env, rt: Runtime, project: Json, templates: Json): (r: (Fs, Outcome))
    requires Descriptor(project)
    // skip-if-present: either path existing means no change
    ensures Present(fs, SiteName(rt, project)) ==> r == (fs, Returns(false))
    // a missing or empty template means no change
    ensures !Present(fs, SiteName(rt, project)) && LookupTemplate(templates, Kind(project)) == NotFound ==>
              r == (fs, Returns(false))
    // nothing is ever overwritten or removed, and no other site is touched
    ensures Extends(fs, r.0) && SameExcept(fs, r.0, {SiteName(rt, project)})
    ensures r.1 == Raises ==> r.0 == fs
    // an exception escapes exactly when the site is absent and the template lookup or the render raises
    ensures var n, l := SiteName(rt, project), LookupTemplate(templates, Kind(project));
            r.1 == Raises <==>
              && !Present(fs, n)
              && (l.LookupRaises? || (l.Found? && Render(rt, project, l.body).None?))
    // the body is written exactly when the site is absent, the template renders and the write succeeds
    ensures var n, l := SiteName(rt, project), LookupTemplate(templates, Kind(project));
            r.0 != fs <==>
              && !Present(fs, n)
              && l.Found? && Render(rt, project, l.body).Some?
              && n !in env.unwritable
    // and what is written is the rendered body, stored under the site's name
    ensures var n, l := SiteName(rt, project), LookupTemplate(templates, Kind(project));
            r.0 != fs ==> l.Found? && Render(rt, project, l.body).Some? &&
                          r.0.available == fs.available[n := Render(rt, project, l.body).value]
    // once written, true exactly when the enabled path is already a link to the site's own body
    // or `ln -s` can make one there
    ensures var n := SiteName(rt, project);
            r.0 != fs ==>
              (r.1 == Returns(true) <==>
                 (n in fs.enabled ==> fs.enabled[n] == Link(n)) && (n !in fs.enabled ==> n !in env.unlinkable))
    // true means the body was written and the enabled path now resolves to it
    ensures r.1 == Returns(true) ==> r.0 != fs && Resolves(r.0, SiteName(rt, project))
    ensures r.1 == Returns(true) ==>
              r.0.enabled == fs.enabled || r.0.enabled == fs.enabled[SiteName(rt, project) := Link(SiteName(rt, project))]
    // a failed link leaves the written body in place and the site not enabled
    ensures r.0 != fs && r.1 == Returns(false) ==>
              r.0.enabled == fs.enabled && !Resolves(r.0, SiteName(rt, project))
  {
    var name := SiteName(rt, project);
    if Present(fs, name) then (fs, Returns(false))
    else
      match LookupTemplate(templates, Kind(project))
      case LookupRaises => (fs, Raises)
      case NotFound => (fs, Returns(false))
      case Found(body) =>
        match Render(rt, project, body)
        case None => (fs, Raises)
        case Some(content) =>
          if name in env.unwritable then (fs, Returns(false))
          else
            var written := fs.(available := fs.available[name := content]);
            if Resolves(written, name) then (written, Returns(true))
            else if name in written.enabled || name in env.unlinkable then (written, Returns(false))
            else (written.(enabled := written.enabled[name := Link(name)]), Returns(true))
  }

  /** The site names of a list of projects. */
  function Names(rt: Runtime, ps: seq<Json>): (r: set<string>)
    requires forall i :: 0 <= i < |ps| ==> Descriptor(ps[i])
    ensures forall i :: 0 <= i < |ps| ==> SiteName(rt, ps[i]) in r
    ensures forall n :: n in r ==> exists i :: 0 <= i < |ps| && SiteName(rt, ps[i]) == n
  {
    if ps == [] then {} else {SiteName(rt, ps[0])} + Names(rt, ps[1..])
  }

  lemma SameExceptTrans(s: Fs, t: Fs, u: Fs, a: set<string>, b: set<string>)
    requires SameExcept(s, t, a) && SameExcept(t, u, b)
    ensures SameExcept(s, u, a + b)
  {
    assert s.available - (a + b) == (s.available - a) - b;
    assert t.available - (a + b) == (t.available - a) - b;
    assert t.available - (a + b) == (t.available - b) - a;
    assert u.available - (a + b) == (u.available - b) - a;
    assert s.enabled - (a + b) == (s.enabled - a) - b;
    assert t.enabled - (a + b) == (t.enabled - a) - b;
    assert t.enabled - (a + b) == (t.enabled - b) - a;
    assert u.enabled - (a + b) == (u.enabled - b) - a;
  }

  /** The loop of main over the valid projects: the final state and the
      outcome of every call made. An escaping exception ends the loop. */
  function Run(fs: Fs, env: Env, rt: Runtime, ps: seq<Json>, templates: Json): (r: (Fs, seq<Outcome>))
    requires forall i :: 0 <= i < |ps| ==> Descriptor(ps[i])
    // every project is processed, unless an exception ends the loop at the last outcome
    ensures |r.1| <= |ps|
    ensures |r.1| < |ps| ==> r.1 != [] && r.1[|r.1| - 1] == Raises
    ensures forall i :: 0 <= i < |r.1| - 1 ==> r.1[i].Returns?
    decreases |ps|
  {
    if ps == [] then (fs, [])
    else
      var (fs1, o) := Create(fs, env, rt, ps[0], templates);
      if o == Raises then (fs1, [o])
      else
        var (fs2, os) := Run(fs1, env, rt, ps[1..], templates);
        (fs2, [o] + os)
  }

  /** The loop only adds entries, and only to the projects' own sites. */
  lemma {:induction false} RunFrame(fs: Fs, env: Env, rt: Runtime, ps: seq<Json>, templates: Json)
    requires forall i :: 0 <= i < |ps| ==> Descriptor(ps[i])
    ensures var r := Run(fs, env, rt, ps, templates);
            Extends(fs, r.0) && SameExcept(fs, r.0, Names(rt, ps))
    decreases |ps|
  {
    if ps != [] {
      var (fs1, o) := Create(fs, env, rt, ps[0], templates);
      if o != Raises {
        RunFrame(fs1, env, rt, ps[1..], templates);
        SameExceptTrans(fs, fs1, Run(fs1, env, rt, ps[1..], templates).0, {SiteName(rt, ps[0])}, Names(rt, ps[1..]));
      }
    }
  }

  /** One step of the loop: the outcome of the first project's create
      decides the loop's result from the state that create leaves. */
  lemma RunStep(fs: Fs, after: Fs, out: Outcome, env: Env, rt: Runtime, ps: seq<Json>, templates: Json)
    requires forall i :: 0 <= i < |ps| ==> Descriptor(ps[i])
    requires ps != [] && Create(fs, env, rt, ps[0], templates) == (after, out)
    ensures out == Raises ==> Run(fs, env, rt, ps, templates) == (after, [Raises])
    ensures out != Raises ==>
              Run(fs, env, rt, ps, templates) ==
              (Run(after, env, rt, ps[1..], templates).0, [out] + Run(after, env, rt, ps[1..], templates).1)
  {
  }

  /** The list comprehension of main that keeps the accepted projects, in order. */
  function ValidProjects(ps: seq<Json>): (r: seq<Json>)
    ensures forall p :: p in r <==> p in ps && ValidateProject(p).Accepted?
    ensures forall i :: 0 <= i < |r| ==> Descriptor(r[i])
    ensures |r| <= |ps|
  {
    if ps == [] then []
    else if ValidateProject(ps[0]).Accepted? then [ps[0]] + ValidProjects(ps[1..])
    else ValidProjects(ps[1..])
  }

  /** The comprehension keeps order and duplicates: it distributes over
      concatenation. */
  lemma {:induction false} ValidProjectsAppend(a: seq<Json>, b: seq<Json>)
    ensures ValidProjects(a + b) == ValidProjects(a) + ValidProjects(b)
    decreases |a|
  {
    if a == [] {
      assert a + b == b;
    } else {
      assert (a + b)[0] == a[0] && (a + b)[1..] == a[1..] + b;
      ValidProjectsAppend(a[1..], b);
    }
  }

  /** ... and keeps a single project exactly when it validates. */
  lemma ValidProjectsSingle(p: Json)
    ensures ValidProjects([p]) == if ValidateProject(p).Accepted? then [p] else []
  {
    assert [p][1..] == [];
  }

  /** How main ends: normally, through exit(1) for want of projects,
      templates or valid projects, or by an exception escaping
      create_nginx_config. */
  datatype Exit = Finished | ExitOne | Crashed

  /** The directories after a run of main, the server commands it issued,
      and how it ended. */
  datatype SyncResult = SyncResult(fs: Fs, calls: seq<Call>, exit: Exit)

  /** Lines 89-114 of main, on the loaded project list and template set:
      the new state, the server commands issued, and how it ends. */
  function Sync(fs: Fs, env: Env, rt: Runtime, projects: seq<Json>, templates: Json): (r: SyncResult)
    // exit(1) when the project list is empty, the template set is falsy, or no project is valid
    ensures r.exit == ExitOne <==> !Truthy(templates) || ValidProjects(projects) == []
    ensures r.exit == ExitOne ==> r.fs == fs
    ensures r.exit != ExitOne ==> r.fs == Run(fs, env, rt, ValidProjects(projects), templates).0
    ensures r.exit == Crashed <==>
              Truthy(templates) && Raises in Run(fs, env, rt, ValidProjects(projects), templates).1
    // only the valid projects' sites can change, and only by gaining entries
    ensures Extends(fs, r.fs) && SameExcept(fs, r.fs, Names(rt, ValidProjects(projects)))
    // no change, no server command; a change means exactly one test
    ensures r.calls != [] <==>
              r.exit == Finished && Returns(true) in Run(fs, env, rt, ValidProjects(projects), templates).1
    ensures r.calls != [] ==> r.calls[0] == ConfigTest && ConfigTest !in r.calls[1..]
    // restart only after a passing test, and then always
    ensures Restart in r.calls <==> r.calls != [] && env.configTest(r.fs)
    ensures Reload !in r.calls && |r.calls| <= 2
  {
    var valid := ValidProjects(projects);
    RunFrame(fs, env, rt, valid, templates);
    if projects == [] || !Truthy(templates) || valid == [] then SyncResult(fs, [], ExitOne)
    else
      var (fs', outs) := Run(fs, env, rt, valid, templates);
      if Raises in outs then SyncResult(fs', [], Crashed)
      else if Returns(true) in outs then
        SyncResult(fs', if env.configTest(fs') then [ConfigTest, Restart] else [ConfigTest], Finished)
      else SyncResult(fs', [], Finished)
  }

  // ---------------------------------------------------------------------
  // Idempotence and duplicate names

  /** After a call that returns, a second call on the same project changes
      nothing and returns false. */
  lemma CreateSettles(fs: Fs, env: Env, rt: Runtime, project: Json, templates: Json)
    requires Descriptor(project)
    requires Create(fs, env, rt, project, templates).1.Returns?
    ensures var s := Create(fs, env, rt, project, templates).0;
            Create(s, env, rt, project, templates) == (s, Returns(false))
  {
    var s := Create(fs, env, rt, project, templates).0;
    if s != fs {
      assert SiteName(rt, project) in s.available;
    }
  }

  /** A project on which create changes nothing and returns false keeps that
      behaviour in every state that extends the current one. */
  lemma SettledPersists(s: Fs, t: Fs, env: Env, rt: Runtime, project: Json, templates: Json)
    requires Descriptor(project)
    requires Create(s, env, rt, project, templates) == (s, Returns(false))
    requires Extends(s, t)
    ensures Create(t, env, rt, project, templates) == (t, Returns(false))
  {
    var name := SiteName(rt, project);
    if Present(s, name) {
      PresentPersists(s, t, name);
    }
  }

  /** After a loop that ran to the end, every one of its projects is settled:
      create on it changes nothing and returns false. */
  lemma {:induction false} RunSettles(fs: Fs, env: Env, rt: Runtime, ps: seq<Json>, templates: Json, i: nat)
    requires forall k :: 0 <= k < |ps| ==> Descriptor(ps[k])
    requires Raises !in Run(fs, env, rt, ps, templates).1
    requires i < |ps|
    ensures var s := Run(fs, env, rt, ps, templates).0;
            Create(s, env, rt, ps[i], templates) == (s, Returns(false))
    decreases |ps|
  {
    assert i > 0 ==> ps[1..][i - 1] == ps[i];
    var (fs1, o) := Create(fs, env, rt, ps[0], templates);
    RunStep(fs, fs1, o, env, rt, ps, templates);
    if i == 0 {
      CreateSettles(fs, env, rt, ps[0], templates);
      RunFrame(fs1, env, rt, ps[1..], templates);
      SettledPersists(fs1, Run(fs1, env, rt, ps[1..], templates).0, env, rt, ps[0], templates);
    } else {
      RunSettles(fs1, env, rt, ps[1..], templates, i - 1);
    }
  }

  /** A loop over settled projects changes nothing and creates nothing. */
  lemma {:induction false} RunSettledIsNoop(s: Fs, env: Env, rt: Runtime, ps: seq<Json>, templates: Json)
    requires forall i :: 0 <= i < |ps| ==> Descriptor(ps[i])
    requires forall i :: 0 <= i < |ps| ==> Create(s, env, rt, ps[i], templates) == (s, Returns(false))
    ensures Run(s, env, rt, ps, templates).0 == s
    ensures forall o :: o in Run(s, env, rt, ps, templates).1 ==> o == Returns(false)
    decreases |ps|
  {
    if ps != [] {
      RunStep(s, s, Returns(false), env, rt, ps, templates);
      forall i | 0 <= i < |ps[1..]|
        ensures Create(s, env, rt, ps[1..][i], templates) == (s, Returns(false))
      {
        assert ps[1..][i] == ps[i + 1];
      }
      RunSettledIsNoop(s, env, rt, ps[1..], templates);
    }
  }

  /** Once the loop has run past a first project that returned, a rerun
      from where the loop ended skips that project. */
  lemma RerunSkipsFirst(fs: Fs, env: Env, rt: Runtime, ps: seq<Json>, templates: Json)
    requires forall i :: 0 <= i < |ps| ==> Descriptor(ps[i])
    requires ps != [] && Create(fs, env, rt, ps[0], templates).1 != Raises
    ensures var s := Run(Create(fs, env, rt, ps[0], templates).0, env, rt, ps[1..], templates).0;
            Run(s, env, rt, ps, templates) ==
            (Run(s, env, rt, ps[1..], templates).0, [Returns(false)] + Run(s, env, rt, ps[1..], templates).1)
  {
    var fs1 := Create(fs, env, rt, ps[0], templates).0;
    var s := Run(fs1, env, rt, ps[1..], templates).0;
    CreateSettles(fs, env, rt, ps[0], templates);
    RunFrame(fs1, env, rt, ps[1..], templates);
    SettledPersists(fs1, s, env, rt, ps[0], templates);
    RunStep(s, s, Returns(false), env, rt, ps, templates);
  }

  /** Running the loop again from the state it left changes nothing,
      creates nothing, and raises exactly when the first loop raised: the
      projects before the one that raised are settled, and that one raises
      again from the same state. */
  lemma {:induction false} RerunRun(fs: Fs, env: Env, rt: Runtime, ps: seq<Json>, templates: Json)
    requires forall i :: 0 <= i < |ps| ==> Descriptor(ps[i])
    ensures var r := Run(fs, env, rt, ps, templates);
            var r2 := Run(r.0, env, rt, ps, templates);
            r2.0 == r.0 && Returns(true) !in r2.1 && (Raises in r2.1 <==> Raises in r.1)
    decreases |ps|
  {
    if ps != [] {
      var (fs1, o) := Create(fs, env, rt, ps[0], templates);
      RunStep(fs, fs1, o, env, rt, ps, templates);
      if o != Raises {
        RerunSkipsFirst(fs, env, rt, ps, templates);
        RerunRun(fs1, env, rt, ps[1..], templates);
        var rest2 := Run(Run(fs1, env, rt, ps[1..], templates).0, env, rt, ps[1..], templates).1;
        assert forall x :: x in [Returns(false)] + rest2 <==> x == Returns(false) || x in rest2;
      }
    }
  }

  /** Running main again on the same inputs changes nothing, issues no
      server command and ends the same way, whether or not the first run
      crashed. */
  lemma SyncRerunIsNoop(fs: Fs, env: Env, rt: Runtime, projects: seq<Json>, templates: Json)
    ensures var first := Sync(fs, env, rt, projects, templates);
            Sync(first.fs, env, rt, projects, templates) == SyncResult(first.fs, [], first.exit)
  {
    var valid := ValidProjects(projects);
    if Truthy(templates) && valid != [] {
      RerunRun(fs, env, rt, valid, templates);
    }
  }

  /** The outcomes of a loop are the first project's outcome followed by
      the outcomes of the rest of the loop, run from the state it leaves. */
  lemma RunOutcomeAt(fs: Fs, env: Env, rt: Runtime, ps: seq<Json>, templates: Json, j: nat)
    requires forall i :: 0 <= i < |ps| ==> Descriptor(ps[i])
    requires j < |Run(fs, env, rt, ps, templates).1|
    ensures Run(fs, env, rt, ps, templates).1[0] == Create(fs, env, rt, ps[0], templates).1
    ensures var s := Create(fs, env, rt, ps[0], templates).0;
            j > 0 ==> j - 1 < |Run(s, env, rt, ps[1..], templates).1| &&
                      Run(fs, env, rt, ps, templates).1[j] == Run(s, env, rt, ps[1..], templates).1[j - 1]
  {
    var r := Create(fs, env, rt, ps[0], templates);
    RunStep(fs, r.0, r.1, env, rt, ps, templates);
  }

  /** Once a site exists, no later project with its name returns true. */
  lemma {:induction false} PresentNeverCreates(fs: Fs, env: Env, rt: Runtime, ps: seq<Json>, templates: Json, name: string, j: nat)
    requires forall i :: 0 <= i < |ps| ==> Descriptor(ps[i])
    requires Present(fs, name)
    requires j < |Run(fs, env, rt, ps, templates).1| && SiteName(rt, ps[j]) == name
    ensures Run(fs, env, rt, ps, templates).1[j] == Returns(false)
    decreases |ps|
  {
    RunOutcomeAt(fs, env, rt, ps, templates, j);
    if j > 0 {
      assert ps[1..][j - 1] == ps[j];
      var s := Create(fs, env, rt, ps[0], templates).0;
      PresentPersists(fs, s, name);
      PresentNeverCreates(s, env, rt, ps[1..], templates, name, j - 1);
    }
  }

  /** A first project that returns true blocks every later one with its name. */
  lemma FirstCreateBlocks(fs: Fs, env: Env, rt: Runtime, ps: seq<Json>, templates: Json, j: nat)
    requires forall k :: 0 <= k < |ps| ==> Descriptor(ps[k])
    requires 0 < j < |Run(fs, env, rt, ps, templates).1|
    requires SiteName(rt, ps[0]) == SiteName(rt, ps[j])
    requires Run(fs, env, rt, ps, templates).1[0] == Returns(true)
    ensures Run(fs, env, rt, ps, templates).1[j] == Returns(false)
  {
    assert ps[1..][j - 1] == ps[j];
    RunOutcomeAt(fs, env, rt, ps, templates, j);
    PresentNeverCreates(Create(fs, env, rt, ps[0], templates).0, env, rt, ps[1..], templates, SiteName(rt, ps[0]), j - 1);
  }

  /** Among projects that share a site name, at most one returns true: the
      site exists after it, so every later one is skipped. */
  lemma {:induction false} AtMostOneCreates(fs: Fs, env: Env, rt: Runtime, ps: seq<Json>, templates: Json, i: nat, j: nat)
    requires forall k :: 0 <= k < |ps| ==> Descriptor(ps[k])
    requires i < j < |Run(fs, env, rt, ps, templates).1|
    requires SiteName(rt, ps[i]) == SiteName(rt, ps[j])
    requires Run(fs, env, rt, ps, templates).1[i] == Returns(true)
    ensures Run(fs, env, rt, ps, templates).1[j] == Returns(false)
    decreases |ps|
  {
    if i == 0 {
      FirstCreateBlocks(fs, env, rt, ps, templates, j);
    } else {
      assert ps[1..][j - 1] == ps[j] && ps[1..][i - 1] == ps[i];
      RunOutcomeAt(fs, env, rt, ps, templates, j);
      RunOutcomeAt(fs, env, rt, ps, templates, i);
      AtMostOneCreates(Create(fs, env, rt, ps[0], templates).0, env, rt, ps[1..], templates, i - 1, j - 1);
    }
  }

  // ---------------------------------------------------------------------
  // A worked example

  /** One root-domain project on empty directories, with a renderer that
      substitutes the port: the body is written and enabled, nginx is tested
      and restarted; the second run changes nothing and calls nothing. */
  lemma FreshSiteExample(env: Env, rt: Runtime)
    requires rt.str(JString("a")) == "a"
    requires rt.render(JString("server{{ port }}"), JString(""), JString("a.com"), JInt(8080)) == Some("server8080")
    requires "a" !in env.unwritable && "a" !in env.unlinkable
    requires env.configTest(Fs(map["a" := "server8080"], map["a" := Link("a")]))
    ensures var project := JObject(map["name" := JString("a"), "domain" := JString("a.com"), "port" := JInt(8080)]);
            var templates := JObject(map["rootdomain" := JObject(map["template" := JString("server{{ port }}")])]);
            var after := Fs(map["a" := "server8080"], map["a" := Link("a")]);
            && Sync(Fs(map[], map[]), env, rt, [project], templates) == SyncResult(after, [ConfigTest, Restart], Finished)
            && Sync(after, env, rt, [project], templates) == SyncResult(after, [], Finished)
  {
    var project := JObject(map["name" := JString("a"), "domain" := JString("a.com"), "port" := JInt(8080)]);
    var templates := JObject(map["rootdomain" := JObject(map["template" := JString("server{{ port }}")])]);
    assert ValidProjects([project]) == [project];
    assert LookupTemplate(templates, Kind(project)) == Found(JString("server{{ port }}"));
    var after := Fs(map["a" := "server8080"], map["a" := Link("a")]);
    assert Create(Fs(map[], map[]), env, rt, project, templates) == (after, Returns(true));
    RunStep(Fs(map[], map[]), after, Returns(true), env, rt, [project], templates);
    assert [project][1..] == [];
    SyncRerunIsNoop(Fs(map[], map[]), env, rt, [project], templates);
  }

  /** A project whose port is out of range is dropped before any file is
      touched; with no valid project left, main exits with status 1. */
  lemma PortOutOfRangeExample(fs: Fs, env: Env, rt: Runtime, templates: Json)
    ensures var project := JObject(map["name" := JString("a"), "domain" := JString("a.com"), "port" := JInt(99999)]);
            Sync(fs, env, rt, [project], templates) == SyncResult(fs, [], ExitOne)
  {
    var project := JObject(map["name" := JString("a"), "domain" := JString("a.com"), "port" := JInt(99999)]);
    assert ValidateProject(project).BadPort?;
    assert ValidProjects([project]) == [];
  }

  // ---------------------------------------------------------------------
  // The imperative code

  /** create_nginx_config against the host. */
  method CreateNginxConfig(m: Machine, rt: Runtime, project: Json, templates: Json) returns (out: Outcome)
    requires Descriptor(project)
    modifies m
    ensures (m.State(), out) == Create(old(m.State()), m.env, rt, project, templates)
    ensures m.calls == old(m.calls)
  {
    var name := SiteName(rt, project);
    if m.ExistsAvailable(name) || m.ExistsEnabled(name) {
      return Returns(false);
    }
    var lookup := LookupTemplate(templates, Kind(project));
    if lookup.LookupRaises? {
      return Raises;
    }
    if lookup.NotFound? {
      return Returns(false);
    }
    var rendered := Render(rt, project, lookup.body);
    if rendered.None? {
      return Raises;
    }
    var written := m.WriteFile(name, rendered.value);
    if !written {
      return Returns(false);
    }
    if !m.ExistsEnabled(name) {
      var linked := m.Symlink(name);
      if !linked {
        return Returns(false);
      }
    }
    return Returns(true);
  }

  /** One pass of the loop of main: create_nginx_config on project i, which
      gives the new state and `out` as `Create` does, and what it leaves
      for the rest of the loop. With `total` the loop's
      result from project i on, and `rest` its result from project i + 1
      on after this pass: an exception ends the loop here; otherwise the
      loop ends where `rest` ends, raises iff `rest` does, and some create
      returns true iff this one does or one in `rest` does. */
  method CreateStep(m: Machine, rt: Runtime, valid: seq<Json>, i: nat, templates: Json) returns (out: Outcome)
    requires forall k :: 0 <= k < |valid| ==> Descriptor(valid[k])
    requires i < |valid|
    modifies m
    ensures m.calls == old(m.calls)
    ensures (m.State(), out) == Create(old(m.State()), m.env, rt, valid[i], templates)
    ensures var total := Run(old(m.State()), m.env, rt, valid[i..], templates);
            out == Raises ==> total.0 == m.State() && Raises in total.1 && Returns(true) !in total.1
    ensures var total := Run(old(m.State()), m.env, rt, valid[i..], templates);
            var rest := Run(m.State(), m.env, rt, valid[i + 1..], templates);
            out != Raises ==>
              && total.0 == rest.0
              && (Raises in total.1 <==> Raises in rest.1)
              && (Returns(true) in total.1 <==> out == Returns(true) || Returns(true) in rest.1)
  {
    ghost var before := m.State();
    out := CreateNginxConfig(m, rt, valid[i], templates);
    RunStep(before, m.State(), out, m.env, rt, valid[i..], templates);
    assert valid[i..][1..] == valid[i + 1..];
    ghost var rest := Run(m.State(), m.env, rt, valid[i + 1..], templates);
    assert forall o :: o in [out] + rest.1 <==> o == out || o in rest.1;
  }

  /** Lines 104-107 of main: the loop over the valid projects, setting
      changes_made. `crashed` reports an exception escaping
      create_nginx_config, which ends the loop, and main with it. */
  method CreateAll(m: Machine, rt: Runtime, valid: seq<Json>, templates: Json) returns (changesMade: bool, crashed: bool)
    requires forall i :: 0 <= i < |valid| ==> Descriptor(valid[i])
    modifies m
    ensures m.calls == old(m.calls)
    ensures m.State() == Run(old(m.State()), m.env, rt, valid, templates).0
    ensures crashed <==> Raises in Run(old(m.State()), m.env, rt, valid, templates).1
    ensures changesMade <==> Returns(true) in Run(old(m.State()), m.env, rt, valid, templates).1
  {
    ghost var env := m.env;
    ghost var total := Run(m.State(), env, rt, valid, templates);
    assert valid[0..] == valid;
    changesMade, crashed := false, false;
    var i := 0;
    while i < |valid|
      invariant 0 <= i <= |valid|
      invariant m.calls == old(m.calls)
      invariant total.0 == Run(m.State(), env, rt, valid[i..], templates).0
      invariant Raises in total.1 <==> Raises in Run(m.State(), env, rt, valid[i..], templates).1
      invariant Returns(true) in total.1 <==>
                changesMade || Returns(true) in Run(m.State(), env, rt, valid[i..], templates).1
    {
      var out := CreateStep(m, rt, valid, i, templates);
      if out == Raises {
        return changesMade, true;
      }
      if out == Returns(true) {
        changesMade := true;
      }
      i := i + 1;
    }
    assert Run(m.State(), env, rt, valid[i..], templates) == (m.State(), []);
  }

  /** Lines 89-114 of main against the host, on the loaded project list
      and template set. */
  method SyncMain(m: Machine, rt: Runtime, projects: seq<Json>, templates: Json) returns (exit: Exit)
    modifies m
    ensures old(m.calls) <= m.calls
    ensures SyncResult(m.State(), m.calls[|old(m.calls)|..], exit) == Sync(old(m.State()), m.env, rt, projects, templates)
  {
    if projects == [] || !Truthy(templates) {
      assert m.calls[|old(m.calls)|..] == [];
      return ExitOne;
    }
    var valid := ValidProjects(projects);
    if valid == [] {
      assert m.calls[|old(m.calls)|..] == [];
      return ExitOne;
    }
    var changesMade, crashed := CreateAll(m, rt, valid, templates);
    if crashed {
      // the exception propagates out of main
      assert m.calls[|old(m.calls)|..] == [];
      return Crashed;
    }
    ghost var sEnd := m.State();
    if changesMade {
      var ok := m.TestConfig();
      if ok {
        m.RestartServer();
      }
    }
    assert m.calls[|old(m.calls)|..] ==
      if !changesMade then [] else if m.env.configTest(sEnd) then [ConfigTest, Restart] else [ConfigTest];
    return Finished;
  }
}
