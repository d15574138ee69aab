# nginx site configuration sync, modelled in Dafny

This project models the decision logic of a small tool that manages nginx
virtual-host files. The tool has two parts:

- `setup_nginx.py` reads a list of project descriptors and a template set. It
  keeps the projects that pass `validate_project`. For each of them,
  `create_nginx_config` writes `sites-available/<name>` from a jinja2 template
  and links `sites-enabled/<name>` to it, unless either path already exists.
  When at least one site was created, `main` runs `nginx -t` and restarts
  nginx only if the test passes.
- `delete_config.py` has `delete_domain`. It removes the enabled entry only
  when it is a symbolic link, removes the available file if there is one,
  then runs `nginx -t` and reloads nginx only if the test passes.

## How the model is built

- `json.dfy` (module `Json`): the values `json.load` produces, Python
  truthiness, and `dict.get`. `AsInt` follows Python, where `bool` is a
  subclass of `int`. So a port of `true` passes validation (as 1), and
  `false` fails it.
- `store.dfy` (module `Store`): the two directories as a value
  `Fs(available, enabled)`, both keyed by site name. An enabled entry is
  `Link(target)` or `Plain`. `Resolves` is `os.path.exists` on the enabled
  path, so a dangling link counts as absent. `Env` holds the host's
  behaviour: the names whose write or `ln -s` fails, and the verdict of
  `nginx -t` as a function of the directory state. The class `Machine` is
  the mutable host. Its methods are the file operations and server commands
  the scripts perform, and it keeps a record of the server commands issued.
- `setup_nginx.dfy` (module `SetupNginx`): `ValidateProject`, and the
  specification functions `Create`, `Run` and `Sync`. The imperative methods
  `CreateNginxConfig`, `CreateAll` (the loop of `main`) and `SyncMain` are
  proved equal to those functions.
  The lemmas cover idempotence, duplicate names and the two worked examples.
- `delete_config.dfy` (module `DeleteConfig`): the specification function
  `Delete` and the method `DeleteDomain` proved against it. Its lemmas say
  that deleting is idempotent and that it undoes `create_nginx_config`.

jinja2 rendering and Python's `str()` of the `name` value are not
interpreted. They are the fields of `SetupNginx.Runtime` and hold for any
behaviour. A render that raises is `None`.

### Behaviour of the code worth knowing

- If `ln -s` fails after the write, `create_nginx_config` returns false. It
  does not count as created. The written body stays in `sites-available`.
- A template lookup or render exception is not caught per project. It ends
  the loop and `main` (`Exit.Crashed`). No test and no restart follow, even
  when earlier projects were created.
- Among projects that share a site name, at most one creates (`AtMostOneCreates`).
  It need not be the first: an earlier one whose template is missing for
  its kind leaves nothing behind, and a later one of the other kind can
  create. In the source a transient write failure would also let a later
  one create; the model's write faults are fixed per name, so there a
  later project with the same name fails its write as well.
- `ln -s` also fails when a dangling link already sits at the enabled path.
  The existence check let that project through, so it returns false.
  The exception is a dangling link to the site's own body, which resolves
  once the body is written; that project returns true and no new link is made.

## Model

| member | source | states |
|---|---|---|
| SetupNginx.ValidateProject | setup_nginx.py:20-32 | accepted iff the descriptor is a dict holding name, domain and port with port a Python int in 1..65535; otherwise the verdict names the first failing rule in the order dict, name, domain, port, and a bad port is reported only when all three keys are present |
| SetupNginx.Create | setup_nginx.py:34-65 | an exception escapes iff neither path exists and the template lookup fails on a non-dict or the render raises; the body is written iff neither path exists, the template of the kind chosen by `subdomain` is non-empty and renders, and the write succeeds, and what is written is that rendered body under the site's name; once written, the result is true iff the enabled path is already a link to the site's own body or `ln -s` can make one there, so a failed link returns false and keeps the body with the site not enabled; nothing is overwritten or removed and no other site changes; true means the enabled path now resolves, and at most a link to the site's own body was added |
| SetupNginx.CreateNginxConfig | setup_nginx.py:34-65 | the host's new state and the outcome are those of `Create`, and no server command is issued |
| SetupNginx.Run | setup_nginx.py:104-107 | every valid project is processed in order unless an exception ends the loop, and then it is the last outcome |
| SetupNginx.RunFrame | setup_nginx.py:104-107 | across the loop entries only accumulate, unaltered, and only the projects' own sites change |
| SetupNginx.ValidProjects | setup_nginx.py:98 | keeps the projects that validate and no others, each of them usable by the create step |
| SetupNginx.ValidProjectsAppend | setup_nginx.py:98 | the filter distributes over concatenation, so it keeps the projects' order and their duplicates |
| SetupNginx.ValidProjectsSingle | setup_nginx.py:98 | a single project is kept iff it validates |
| SetupNginx.Sync | setup_nginx.py:89-114 | `exit(1)` (lines 91, 96 and 102) is called iff the template set is falsy or no project is valid, an empty project list included, and nothing changes when main exits with status 1; only valid projects' sites change; server commands are issued iff the loop finished and some create returned true, and then the test comes first and runs once; restart iff that test passes; never a reload |
| SetupNginx.CreateStep | setup_nginx.py:105-107 | one pass of the loop on project i: the new state and the outcome are those of `Create` on that project; an exception ends the loop there with the state create left; otherwise the loop from project i ends where the loop from project i + 1 ends, raises iff that one does, and sees a true iff this create returned true or the rest does |
| SetupNginx.CreateAll | setup_nginx.py:104-107 | the host's state after the loop is that of `Run`; `changes_made` is set iff some create returned true; the loop reports a crash iff an exception escaped; no server command is issued |
| SetupNginx.SyncMain | setup_nginx.py:89-114 | the host's new state, the commands it issued and how it ends are those of `Sync` |
| SetupNginx.CreateSettles | setup_nginx.py:35-62 | after a call that returns, calling create again on the same project, on a host with the same write and link faults, changes nothing and returns false |
| SetupNginx.SettledPersists | setup_nginx.py:38-56 | a project on which create is a no-op returning false stays so in every state that only gained entries |
| SetupNginx.RunSettles | setup_nginx.py:104-107 | after a loop that ran to the end, create is a no-op returning false on every one of its projects |
| SetupNginx.RunSettledIsNoop | setup_nginx.py:104-107 | a loop over such projects leaves the state unchanged and every outcome is false |
| SetupNginx.RerunSkipsFirst | setup_nginx.py:38-40 | after the loop has run past a first project that returned, a rerun from where it ended skips that project with false |
| SetupNginx.RerunRun | setup_nginx.py:104-107 | rerunning the loop from the state it left, on a host with the same write and link faults, changes nothing, returns true nowhere, and raises iff the first loop raised |
| SetupNginx.SyncRerunIsNoop | setup_nginx.py:89-114 | running main again on the same inputs, on a host with the same write and link faults as in the first run, changes nothing, issues no server command and ends the same way, whether or not the first run crashed |
| SetupNginx.PresentNeverCreates | setup_nginx.py:38-40 | once a site exists, no later project with its name returns true |
| SetupNginx.FirstCreateBlocks | setup_nginx.py:38-40 | when the first project of the loop returns true, every later project with its name returns false |
| SetupNginx.AtMostOneCreates | setup_nginx.py:105-107 | of two projects with the same site name, if the earlier returns true the later returns false |
| SetupNginx.FreshSiteExample | setup_nginx.py:98-114 | one root-domain project on empty directories yields its rendered body, a link to it, a test and a restart; the second run is a no-op |
| SetupNginx.PortOutOfRangeExample | setup_nginx.py:29-31 | a lone project with port 99999 is dropped, nothing changes and main exits with status 1 |
| Store.Machine.ExistsAvailable | setup_nginx.py:38 | true iff the available file exists |
| Store.Machine.ExistsEnabled | setup_nginx.py:58 | false when nothing sits at the enabled path, true for a non-link there, and for a link true iff its target is in the available directory, so a dangling link counts as absent |
| Store.Machine.IsLink | delete_config.py:9 | true iff the enabled entry is a link, resolving or not |
| Store.Machine.WriteFile | setup_nginx.py:55-56 | the write succeeds unless the name is unwritable, and then stores the body under the name |
| Store.Machine.Symlink | setup_nginx.py:59 | `ln -s` succeeds iff nothing sits at the enabled path and the name is linkable, and then adds a link to the site's own body |
| Store.Machine.RemoveEnabled | delete_config.py:10 | the enabled entry is removed and nothing else |
| Store.Machine.RemoveAvailable | delete_config.py:16 | the available file is removed and nothing else |
| Store.Machine.TestConfig | setup_nginx.py:67-74 | `nginx -t` gives the host's verdict on the current directories and is recorded |
| Store.Machine.RestartServer | setup_nginx.py:76-81 | a restart is recorded; a failure has no further effect |
| Store.Machine.ReloadServer | delete_config.py:23 | a reload is recorded |
| DeleteConfig.Delete | delete_config.py:5-28 | the enabled entry goes iff it is a link, a non-link stays unaltered; the available file is gone afterwards whether or not it existed; no other site changes; the test then runs, first and once, and a reload follows iff it passes; never a restart |
| DeleteConfig.DeleteDomain | delete_config.py:5-28 | the host's new state and the commands it issued are those of `Delete` |
| DeleteConfig.DeleteIdempotent | delete_config.py:9-19 | a second deletion of the same name removes nothing further |
| DeleteConfig.DeleteUndoesCreate | delete_config.py:5-19 | create followed by delete of the site's name leaves the same directories as the delete alone |

## Left out

- Loading `projects.json` and `nginx_templates.json` (setup_nginx.py:10-18, 88, 93): file I/O and JSON parsing. The loaded values are parameters; a load failure returns `None`, which is the falsy `JNull` for the template set. The `if not` checks after each load (lines 89-91, 94-96) are modelled. A project list that is not a JSON array is not modelled.
- The root check with `os.geteuid` (setup_nginx.py:84-86): an OS privilege check outside the decision logic.
- jinja2 template semantics: `Runtime.render` is uninterpreted, and a non-string template body is passed to it as it is.
- Python's `str()` of a non-string `name`, and names holding `/` or `..`: `Runtime.str` is uninterpreted, and the site name is treated as a single file name.
- Links whose target lies outside `sites-available`, links to links, and a link or a directory in `sites-available`: the model's link targets are names in `sites-available`, and available entries are plain files.
- A write that fails part-way: `WriteFile` either stores the whole body or changes nothing. The write and link faults are fixed per name for the whole run, and the rerun lemmas (`CreateSettles`, `RerunRun`, `SyncRerunIsNoop`) keep the same faults for the second run: a write that failed only transiently in the first run would succeed in the second, which would then create the site, test and restart.
- The exit status and output of `ln`, `nginx -t`, `systemctl` and `sudo`: only success or failure is modelled. The output of `nginx -t` is not. Restart and reload failures change nothing, as in the source.
- Logging and `print` output: diagnostics only. The `Verdict` of `ValidateProject` stands for the logged reason.
- `list_config.py` and `list_configurations.py`: directory listing and printing with no decisions.
- DeleteConfig.Delete: the two `os.remove` calls (delete_config.py:10, 16) are assumed to succeed. They are not inside a `try`, so a removal that raises (a permission error, say) would end `delete_domain` before `nginx -t`; the model has no such failure.
- Site names that denote a directory, such as `""`, `.` and `..`: `os.path.exists` holds for them because the directory itself exists, so the source always skips such a project at setup_nginx.py:38. The model treats every name as an ordinary file name and can create a site under it.
- Missing `nginx`, `systemctl` or `sudo` binaries: `subprocess.run` then raises `FileNotFoundError`, which `verify_nginx_configuration` (setup_nginx.py:72-74) and `restart_nginx` (setup_nginx.py:80-81) do not catch, so `main` ends with a traceback; in `delete_domain` a missing `sudo` makes the test at delete_config.py:21 or the reload at delete_config.py:23 raise, and the function ends there. The model's test, restart and reload always run to an exit status.
- The `__main__` blocks, including the empty `domain_to_delete` at delete_config.py:32.
- Concurrent runs against the same directories: the source is single-threaded and has no locking.
