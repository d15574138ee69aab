/** The host the tool runs on: the two nginx site directories
    (/etc/nginx/sites-available and /etc/nginx/sites-enabled), both keyed by
    site name, and the server's control commands (`nginx -t`,
    `systemctl restart nginx`, `systemctl reload nginx`). */
module Store {

  /** What sits at sites-enabled/<name>: a symbolic link to
      sites-available/<target>, or anything that is not a link. */
  datatype Entry = Link(target: string) | Plain

  /** The two directories: configuration bodies by name, and the entries of
      the enabled directory by name. */
  datatype Fs = Fs(available: map<string, string>, enabled: map<string, Entry>)

  /** os.path.exists on sites-enabled/<name>. It follows links, so a link
      whose target is not in sites-available counts as absent. */
  predicate Resolves(fs: Fs, name: string)
  {
    name in fs.enabled && (fs.enabled[name].Plain? || fs.enabled[name].target in fs.available)
  }

  /** Either of the two paths of a site exists. */
  predicate Present(fs: Fs, name: string)
  {
    name in fs.available || Resolves(fs, name)
  }

  /** t keeps every entry of s, unaltered, and may have more. */
  predicate Extends(s: Fs, t: Fs)
  {
    && (forall n :: n in s.available ==> n in t.available && t.available[n] == s.available[n])
    && (forall n :: n in s.enabled ==> n in t.enabled && t.enabled[n] == s.enabled[n])
  }

  /** s and t differ at most in the entries of the given names. */
  predicate SameExcept(s: Fs, t: Fs, names: set<string>)
  {
    s.available - names == t.available - names && s.enabled - names == t.enabled - names
  }

  /** A site that exists in s still exists in every extension of s: links
      only gain targets when sites-available grows. */
  lemma PresentPersists(s: Fs, t: Fs, name: string)
    requires Extends(s, t) && Present(s, name)
    ensures Present(t, name)
  {
  }

  /** A command the tool sends to the server. */
  datatype Call = ConfigTest | Restart | Reload

  /** What the host does beyond storing entries: the names whose
      sites-available file cannot be written and whose sites-enabled link
      cannot be made (permissions, disk errors), and the verdict of
      `nginx -t` on a state of the two directories. */
  datatype Env = Env(unwritable: set<string>, unlinkable: set<string>, configTest: Fs -> bool)

  /** The mutable host: the directories, and the server commands issued so far. */
  class Machine {
    var available: map<string, string>
    var enabled: map<string, Entry>
    var calls: seq<Call>
    const env: Env

    constructor (fs: Fs, env: Env)
      ensures State() == fs && calls == [] && this.env == env
    {
      available := fs.available;
      enabled := fs.enabled;
      calls := [];
      this.env := env;
    }

    function State(): Fs
      reads this
    {
      Fs(available, enabled)
    }

    /** os.path.exists on sites-available/<name>. */
    function ExistsAvailable(name: string): (b: bool)
      reads this
      ensures b <==> name in State().available
    {
      name in available
    }

    /** os.path.exists on sites-enabled/<name>: follows a link, so a
        dangling one counts as absent. */
    function ExistsEnabled(name: string): (b: bool)
      reads this
      ensures name !in enabled ==> !b
      ensures name in enabled && enabled[name].Plain? ==> b
      ensures name in enabled && enabled[name].Link? ==> (b <==> enabled[name].target in available)
    {
      Resolves(State(), name)
    }

    /** os.path.islink on sites-enabled/<name>: does not follow the link. */
    function IsLink(name: string): (b: bool)
      reads this
      ensures b <==> name in State().enabled && State().enabled[name].Link?
    {
      name in enabled && enabled[name].Link?
    }

    /** open(sites-available/<name>, "w").write(content); false when it raises. */
    method WriteFile(name: string, content: string) returns (ok: bool)
      modifies this`available
      ensures ok <==> name !in env.unwritable
      ensures available == if ok then old(available)[name := content] else old(available)
    {
      ok := name !in env.unwritable;
      if ok {
        available := available[name := content];
      }
    }

    /** `ln -s sites-available/<name> sites-enabled/<name>`; false when it
        exits non-zero. ln refuses when anything, even a dangling link,
        already sits at the link path. */
    method Symlink(name: string) returns (ok: bool)
      modifies this`enabled
      ensures ok <==> name !in old(enabled) && name !in env.unlinkable
      ensures enabled == if ok then old(enabled)[name := Link(name)] else old(enabled)
    {
      ok := name !in enabled && name !in env.unlinkable;
      if ok {
        enabled := enabled[name := Link(name)];
      }
    }

    /** os.remove(sites-enabled/<name>) */
    method RemoveEnabled(name: string)
      requires name in enabled
      modifies this`enabled
      ensures enabled == old(enabled) - {name}
    {
      enabled := enabled - {name};
    }

    /** os.remove(sites-available/<name>) */
    method RemoveAvailable(name: string)
      requires name in available
      modifies this`available
      ensures available == old(available) - {name}
    {
      available := available - {name};
    }

    /** `nginx -t`: true when it exits with status 0. */
    method TestConfig() returns (ok: bool)
      modifies this`calls
      ensures ok == env.configTest(State())
      ensures calls == old(calls) + [ConfigTest]
    {
      ok := env.configTest(State());
      calls := calls + [ConfigTest];
    }

    /** `systemctl restart nginx`; a failure is only logged. */
    method RestartServer()
      modifies this`calls
      ensures calls == old(calls) + [Restart]
    {
      calls := calls + [Restart];
    }

    /** `systemctl reload nginx`; its outcome is ignored. */
    method ReloadServer()
      modifies this`calls
      ensures calls == old(calls) + [Reload]
    {
      calls := calls + [Reload];
    }
  }
}
