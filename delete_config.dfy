/** delete_domain of delete_config.py: take a site's enabled link and its
    configuration body away, then test the configuration and reload nginx
    if the test passes. */
module DeleteConfig {
  import opened Json
  import opened Store
  import SetupNginx

  /** The directories after delete_domain, and the server commands it issued. */
  datatype DeleteResult = DeleteResult(fs: Fs, calls: seq<Call>)

  /** delete_domain on a state of the two directories. */
  function Delete(fs: Fs, env: Env, name: string): (r: DeleteResult)
    // the enabled entry is removed exactly when it is a link; anything else stays as it was
    ensures name in r.fs.enabled <==> name in fs.enabled && fs.enabled[name].Plain?
    ensures name in r.fs.enabled ==> r.fs.enabled[name] == fs.enabled[name]
    // the configuration body is gone, whether or not it was there
    ensures name !in r.fs.available
    // no other site is touched
    ensures SameExcept(fs, r.fs, {name})
    // the test always runs, first; a reload follows exactly when it passes
    ensures r.calls != [] && r.calls[0] == ConfigTest && ConfigTest !in r.calls[1..]
    ensures Reload in r.calls <==> env.configTest(r.fs)
    ensures Restart !in r.calls && |r.calls| <= 2
  {
    var unlinked := if name in fs.enabled && fs.enabled[name].Link? then fs.(enabled := fs.enabled - {name}) else fs;
    var removed := if name in unlinked.available then unlinked.(available := unlinked.available - {name}) else unlinked;
    assert removed.available - {name} == fs.available - {name};
    assert removed.enabled - {name} == fs.enabled - {name};
    DeleteResult(removed, [ConfigTest] + if env.configTest(removed) then [Reload] else [])
  }

  /** A second deletion of the same name removes nothing further. */
  lemma DeleteIdempotent(fs: Fs, env: Env, name: string)
    ensures var once := Delete(fs, env, name).fs;
            Delete(once, env, name).fs == once
  {
  }

  /** Deleting a site undoes whatever create_nginx_config did to it: the
      state after create then delete is the state after delete alone. */
  lemma DeleteUndoesCreate(fs: Fs, env: Env, rt: SetupNginx.Runtime, project: Json, templates: Json)
    requires SetupNginx.Descriptor(project)
    ensures var name := SetupNginx.SiteName(rt, project);
            var created := SetupNginx.Create(fs, env, rt, project, templates).0;
            Delete(created, env, name).fs == Delete(fs, env, name).fs
  {
    var name := SetupNginx.SiteName(rt, project);
    var created := SetupNginx.Create(fs, env, rt, project, templates).0;
    var a := Delete(created, env, name).fs;
    var b := Delete(fs, env, name).fs;
    if created != fs {
      assert name !in fs.available;
      assert a.available == created.available - {name} == fs.available - {name} == b.available;
      if name in fs.enabled {
        assert created.enabled == fs.enabled;
      } else {
        assert a.enabled == fs.enabled == b.enabled;
      }
    }
  }

  /** delete_domain against the host. */
  method DeleteDomain(m: Machine, name: string)
    modifies m
    ensures old(m.calls) <= m.calls
    ensures DeleteResult(m.State(), m.calls[|old(m.calls)|..]) == Delete(old(m.State()), m.env, name)
  {
    if m.IsLink(name) {
      m.RemoveEnabled(name);
    }
    if m.ExistsAvailable(name) {
      m.RemoveAvailable(name);
    }
    var ok := m.TestConfig();
    if ok {
      m.ReloadServer();
    }
    assert m.calls[|old(m.calls)|..] == [ConfigTest] + if ok then [Reload] else [];
  }
}
