/** The handle lifecycle of the vendor adapter's seven handlers (src/server/driver/skf_adapter.c:264-877),
    for every pattern of vendor outcomes. */
module SkfSession {
  import opened Common

  // ------------------------------------------------------------- an independent bookkeeping of handles

  datatype Kind = Library | DeviceHandle | Application | Container | Key

  datatype Handle = Handle(kind: Kind, value: nat)

  datatype Event = Opened(h: Handle) | Closed(h: Handle)

  /** The open handles in the order of opening, whether every close so far took the last of them,
      and all handles that were ever opened. */
  datatype Book = Book(open: seq<Handle>, nested: bool, ever: seq<Handle>)

  /** `open` without the last `h`. */
  function Without(open: seq<Handle>, h: Handle): seq<Handle>
    requires h in open
  {
    var last := |open| - 1;
    if open[last] == h then open[..last] else Without(open[..last], h) + [open[last]]
  }

  /** `None` once a handle is closed that is not open. */
  function After(book: Option<Book>, e: Event): Option<Book> {
    if book.None? then None
    else
      var b := book.value;
      match e
      case Opened(h) => Some(Book(b.open + [h], b.nested, b.ever + [h]))
      case Closed(h) =>
        if h in b.open then Some(Book(Without(b.open, h), b.nested && b.open[|b.open| - 1] == h, b.ever)) else None
  }

  function Replay(log: seq<Event>): Option<Book> {
    if log == [] then Some(Book([], true, [])) else After(Replay(log[..|log| - 1]), log[|log| - 1])
  }

  /** Every opened handle was closed exactly once, innermost first, and nothing else was closed. */
  predicate Balanced(log: seq<Event>) {
    Replay(log).Some? && Replay(log).value.open == [] && Replay(log).value.nested
  }

  function Count<T(==)>(s: seq<T>, x: T): nat {
    if s == [] then 0 else Count(s[..|s| - 1], x) + if s[|s| - 1] == x then 1 else 0
  }

  lemma {:induction false} WithoutCount(open: seq<Handle>, h: Handle, x: Handle)
    requires h in open
    ensures Count(Without(open, h), x) == Count(open, x) - if x == h then 1 else 0
  {
    var last := |open| - 1;
    if open[last] != h {
      WithoutCount(open[..last], h, x);
      var w := Without(open[..last], h);
      assert (w + [open[last]])[..|w|] == w;
    }
  }

  /** What the bookkeeping means: a handle is open as often as it was opened more than closed. */
  lemma {:induction false} OpenIsOpenedMinusClosed(log: seq<Event>, x: Handle)
    requires Replay(log).Some?
    ensures Count(Replay(log).value.open, x) == Count(log, Opened(x)) - Count(log, Closed(x))
    ensures Count(Replay(log).value.ever, x) == Count(log, Opened(x))
  {
    if log != [] {
      var init, e := log[..|log| - 1], log[|log| - 1];
      OpenIsOpenedMinusClosed(init, x);
      EventCounts(Replay(init).value, e, x);
      CountInit(log, Opened(x));
      CountInit(log, Closed(x));
    }
  }

  lemma CountInit<T>(s: seq<T>, x: T)
    requires s != []
    ensures Count(s, x) == Count(s[..|s| - 1], x) + if s[|s| - 1] == x then 1 else 0
  {
  }

  lemma EventCounts(b: Book, e: Event, x: Handle)
    requires After(Some(b), e).Some?
    ensures var c := After(Some(b), e).value;
      && Count(c.open, x) == Count(b.open, x) + (if e == Opened(x) then 1 else 0) - (if e == Closed(x) then 1 else 0)
      && Count(c.ever, x) == Count(b.ever, x) + if e == Opened(x) then 1 else 0
  {
    match e
    case Opened(h) => assert (b.open + [h])[..|b.open|] == b.open && (b.ever + [h])[..|b.ever|] == b.ever;
    case Closed(h) => WithoutCount(b.open, h, x);
  }

  /** In a balanced log no handle is closed before it is opened, and at the end each was closed as often as opened. */
  lemma {:induction false} BalancedClosesEachOnce(log: seq<Event>, x: Handle, n: nat)
    requires Balanced(log) && n <= |log|
    ensures Count(log[..n], Closed(x)) <= Count(log[..n], Opened(x))
    ensures Count(log, Closed(x)) == Count(log, Opened(x)) == Count(Replay(log).value.ever, x)
  {
    OpenIsOpenedMinusClosed(log, x);
    PrefixReplays(log, n);
    OpenIsOpenedMinusClosed(log[..n], x);
  }

  lemma {:induction false} PrefixReplays(log: seq<Event>, n: nat)
    requires Replay(log).Some? && n <= |log|
    ensures Replay(log[..n]).Some?
  {
    if n == |log| {
      assert log[..n] == log;
    } else {
      PrefixReplays(log[..|log| - 1], n);
      assert log[..|log| - 1][..n] == log[..n];
    }
  }

  lemma {:induction false} WithoutInner(pre: seq<Handle>, h: Handle, post: seq<Handle>)
    requires h !in post
    ensures Without(pre + [h] + post, h) == pre + post
  {
    var s := pre + [h] + post;
    if post == [] {
      assert s[..|s| - 1] == pre && pre + post == pre;
    } else {
      var init, last := post[..|post| - 1], post[|post| - 1];
      assert s[..|s| - 1] == pre + [h] + init && s[|s| - 1] == last;
      WithoutInner(pre, h, init);
      assert pre + init + [last] == pre + post;
    }
  }

  lemma RecordOpen(log: seq<Event>, h: Handle)
    requires Replay(log).Some?
    ensures var b := Replay(log).value;
      Replay(log + [Opened(h)]) == Some(Book(b.open + [h], b.nested, b.ever + [h]))
  {
    assert (log + [Opened(h)])[..|log|] == log;
  }

  lemma RecordClose(log: seq<Event>, pre: seq<Handle>, h: Handle, post: seq<Handle>)
    requires Replay(log).Some? && Replay(log).value.open == pre + [h] + post && h !in post
    ensures var b := Replay(log).value;
      Replay(log + [Closed(h)]) == Some(Book(pre + post, b.nested && post == [], b.ever))
  {
    assert (log + [Closed(h)])[..|log|] == log;
    var open := pre + [h] + post;
    assert open[|pre|] == h;
    WithoutInner(pre, h, post);
    if post != [] { assert open[|open| - 1] == post[|post| - 1]; } else { assert open[|open| - 1] == h; }
  }

  // ------------------------------------------------------------- the vendor

  /** A call that may write a handle: its return code, and the handle it wrote unless that is NULL. */
  datatype Attempt = Attempt(ok: bool, handle: Option<nat>)

  /** One pattern of outcomes.  `work` is what the handler does between opening and closing. */
  datatype Vendor = Vendor(
    library: Option<nat>, requiredSymbols: bool, deviceNamed: bool, connect: Attempt,
    appPossible: bool, app: Attempt, pinAccepted: bool, containerPossible: bool, container: Attempt,
    keyPossible: bool, key: Attempt, work: bool,
    closeContainer: bool, closeApplication: bool, closeHandle: bool)

  function One(kind: Kind, h: Option<nat>): seq<Handle> {
    if h.Some? then [Handle(kind, h.value)] else []
  }

  /** `open_base` succeeds. */
  predicate Connected(v: Vendor) { v.library.Some? && v.requiredSymbols && v.deviceNamed && v.connect.ok }

  /** `open_base` and `open_app` succeed. */
  predicate InApplication(v: Vendor) { Connected(v) && v.appPossible && v.app.ok }

  /** `open_app_container` succeeds. */
  predicate InContainer(v: Vendor) {
    InApplication(v) && v.pinAccepted && v.containerPossible && v.container.ok
  }

  /** The handles that each stage opens. */
  function BaseOpens(v: Vendor): seq<Handle> {
    One(Library, v.library)
    + if v.library.Some? && v.requiredSymbols && v.deviceNamed then One(DeviceHandle, v.connect.handle) else []
  }

  function AppOpens(v: Vendor): seq<Handle> {
    if Connected(v) && v.appPossible then One(Application, v.app.handle) else []
  }

  function ContainerOpens(v: Vendor): seq<Handle> {
    if InApplication(v) && v.pinAccepted && v.containerPossible then One(Container, v.container.handle) else []
  }

  function KeyOpens(v: Vendor): seq<Handle> {
    if v.keyPossible then One(Key, v.key.handle) else []
  }

  /** A missing required symbol leaves the library open, and a failed connect leaves the device
      handle open that it wrote. */
  predicate BaseTidy(v: Vendor) {
    v.library.Some? ==> v.requiredSymbols && (v.deviceNamed && v.connect.handle.Some? ==> v.connect.ok)
  }

  predicate AppTidy(v: Vendor) { AppOpens(v) != [] ==> v.closeApplication }

  predicate ContainerTidy(v: Vendor) { ContainerOpens(v) != [] ==> v.closeContainer }

  predicate KeyTidy(v: Vendor) { KeyOpens(v) != [] ==> v.closeHandle }

  /** Failed opens leave NULL, the closing functions exist, and so do the required ones. */
  predicate WellBehaved(v: Vendor) {
    && v.requiredSymbols && v.closeContainer && v.closeApplication && v.closeHandle
    && (v.connect.handle.Some? ==> v.connect.ok) && (v.key.handle.Some? ==> v.key.ok)
  }

  /** The handler opened exactly `opens`, closed nothing that was not open, and closed everything
      once and innermost first exactly when `tidy`. */
  predicate Ran(log: seq<Event>, opens: seq<Handle>, tidy: bool) {
    Replay(log).Some? && Replay(log).value.ever == opens && (Balanced(log) <==> tidy)
  }

  // ------------------------------------------------------------- the session

  lemma WithoutDevice(l: seq<Handle>, a: seq<Handle>, c: seq<Handle>, k: seq<Handle>)
    ensures l + [] + a + c + k == l + (a + c + k)
  {
  }

  lemma AroundDevice(l: seq<Handle>, d: seq<Handle>, a: seq<Handle>, c: seq<Handle>, k: seq<Handle>)
    ensures l + d + a + c + k == l + d + (a + c + k)
  {
  }

  lemma OnlyOne(s: seq<Handle>)
    ensures s + [] + [] + [] == s && s + [] == s && [] + s == s
  {
  }

  function Depth(kind: Kind): nat {
    match kind
    case Library => 0
    case DeviceHandle => 1
    case Application => 2
    case Container => 3
    case Key => 4
  }

  class Session {
    var lib: Option<nat>
    var dev: Option<nat>
    var app: Option<nat>
    var container: Option<nat>
    ghost var log: seq<Event>

    constructor ()
      ensures Untouched()
    {
      lib, dev, app, container, log := None, None, None, None, [];
    }

    ghost predicate Untouched()
      reads this
    {
      log == [] && lib.None? && dev.None? && app.None? && container.None?
    }

    /** The handles in the fields. */
    ghost function Held(): seq<Handle>
      reads this
    {
      One(Library, lib) + One(DeviceHandle, dev) + One(Application, app) + One(Container, container)
    }

    /** Exactly the held handles and then `extra` are open, and `ever` were opened. */
    ghost predicate Lists(extra: seq<Handle>, ever: seq<Handle>)
      reads this
    {
      Replay(log).Some? && Replay(log).value.open == Held() + extra && Replay(log).value.ever == ever
    }

    /** ... and every close so far was in order. */
    ghost predicate Holds(extra: seq<Handle>, ever: seq<Handle>)
      reads this
    {
      Lists(extra, ever) && Replay(log).value.nested
    }

    ghost method RecordOpened(h: Handle)
      requires Replay(log).Some?
      modifies this`log
      ensures var b := old(Replay(log)).value; Replay(log) == Some(Book(b.open + [h], b.nested, b.ever + [h]))
    {
      RecordOpen(log, h);
      log := log + [Opened(h)];
    }

    /** Takes a handle out of the books: `pre` was opened before it and `post` after it. */
    ghost method RecordClosed(pre: seq<Handle>, h: Handle, post: seq<Handle>)
      requires Replay(log).Some? && Replay(log).value.open == pre + [h] + post
      requires forall x :: x in post ==> Depth(x.kind) > Depth(h.kind)
      modifies this`log
      ensures var b := old(Replay(log)).value; Replay(log) == Some(Book(pre + post, b.nested && post == [], b.ever))
    {
      RecordClose(log, pre, h, post);
      log := log + [Closed(h)];
    }

    // ----------------------------------------------------------- opening

    method OpenRuntime(v: Vendor) returns (ok: bool)
      requires Untouched()
      modifies this
      ensures ok == (v.library.Some? && v.requiredSymbols)
      ensures lib == v.library && dev.None? && app.None? && container.None? && Holds([], One(Library, lib))
    {
      lib := v.library;
      OnlyOne(One(Library, lib));
      if lib.None? { return false; }
      RecordOpened(Handle(Library, lib.value));
      return v.requiredSymbols;
    }

    method CloseRuntime(ghost rest: seq<Handle>)
      requires lib.Some? && Replay(log).Some? && Replay(log).value.open == One(Library, lib) + rest
      requires forall h :: h in rest ==> !h.kind.Library?
      modifies this`lib, this`log
      ensures lib.None?
      ensures var b := old(Replay(log)).value; Replay(log) == Some(Book(rest, b.nested && rest == [], b.ever))
    {
      assert [] + [Handle(Library, lib.value)] + rest == One(Library, lib) + rest && [] + rest == rest;
      RecordClosed([], Handle(Library, lib.value), rest);
      lib := None;
    }

    method OpenBase(v: Vendor) returns (ok: bool)
      requires Untouched()
      modifies this
      ensures ok == Connected(v)
      ensures ok ==> lib.Some? && app.None? && container.None? && Holds([], BaseOpens(v))
      ensures !ok ==> Ran(log, BaseOpens(v), BaseTidy(v))
    {
      ok := OpenRuntime(v);
      OnlyOne(One(Library, lib));
      if !ok { return; }
      if v.deviceNamed {
        dev := v.connect.handle;
        if dev.Some? { RecordOpened(Handle(DeviceHandle, dev.value)); }
      }
      OnlyOne(One(Library, lib) + One(DeviceHandle, dev));
      if v.deviceNamed && v.connect.ok { return true; }
      CloseRuntime(One(DeviceHandle, dev));
      return false;
    }

    method OpenApp(v: Vendor, ghost ever: seq<Handle>) returns (ok: bool)
      requires Connected(v) && Holds([], ever) && app.None? && container.None?
      modifies this`app, this`log
      ensures ok == InApplication(v)
      ensures One(Application, app) == AppOpens(v) && Holds([], ever + AppOpens(v))
    {
      OnlyOne(ever);
      if !v.appPossible { return false; }
      ghost var before := Held() + [];
      app := v.app.handle;
      if app.Some? { RecordOpened(Handle(Application, app.value)); }
      assert Held() + [] == before + One(Application, app);
      return v.app.ok;
    }

    method OpenContainer(v: Vendor, ghost ever: seq<Handle>) returns (ok: bool)
      requires InApplication(v) && v.pinAccepted && Holds([], ever) && container.None?
      modifies this`container, this`log
      ensures ok == InContainer(v)
      ensures One(Container, container) == ContainerOpens(v) && Holds([], ever + ContainerOpens(v))
    {
      OnlyOne(ever);
      if !v.containerPossible { return false; }
      ghost var before := Held() + [];
      container := v.container.handle;
      if container.Some? { RecordOpened(Handle(Container, container.value)); }
      assert Held() + [] == before + One(Container, container);
      return v.container.ok;
    }

    // ----------------------------------------------------------- closing

    /** What closing leaves open: whatever has no closing function, and `extra`. */
    ghost function Left(v: Vendor, extra: seq<Handle>): seq<Handle>
      reads this
    {
      (if v.closeApplication then [] else One(Application, app)) + (if v.closeContainer then [] else One(Container, container)) + extra
    }

    method CloseContainerIfOpen(v: Vendor, ghost extra: seq<Handle>, ghost ever: seq<Handle>)
      requires Holds(extra, ever) && forall h :: h in extra ==> h.kind.Key?
      modifies this`container, this`log
      ensures container == if v.closeContainer then None else old(container)
      ensures Lists(extra, ever) && (extra == [] ==> Replay(log).value.nested)
    {
      if container.Some? && v.closeContainer {
        ghost var pre := One(Library, lib) + One(DeviceHandle, dev) + One(Application, app);
        RecordClosed(pre, Handle(Container, container.value), extra);
        container := None;
        assert Held() == pre;
      }
    }

    method CloseApplicationIfOpen(v: Vendor, ghost extra: seq<Handle>, ghost ever: seq<Handle>)
      requires Lists(extra, ever) && forall h :: h in extra ==> h.kind.Key?
      modifies this`app, this`log
      ensures app == if v.closeApplication then None else old(app)
      ensures Lists(extra, ever)
      ensures old(Replay(log)).value.nested && container.None? && extra == [] ==> Replay(log).value.nested
    {
      if app.Some? && v.closeApplication {
        ghost var pre, post := One(Library, lib) + One(DeviceHandle, dev), One(Container, container) + extra;
        assert Held() + extra == pre + [Handle(Application, app.value)] + post;
        RecordClosed(pre, Handle(Application, app.value), post);
        app := None;
        assert Held() + extra == pre + post;
      }
    }

    method Disconnect(ghost extra: seq<Handle>, ghost ever: seq<Handle>)
      requires Lists(extra, ever) && forall h :: h in extra ==> h.kind.Key?
      modifies this`dev, this`log
      ensures dev.None? && Lists(extra, ever)
      ensures old(Replay(log)).value.nested && app.None? && container.None? && extra == [] ==> Replay(log).value.nested
    {
      if dev.Some? {
        ghost var l, a, c := One(Library, lib), One(Application, app), One(Container, container);
        AroundDevice(l, One(DeviceHandle, dev), a, c, extra);
        RecordClosed(l, Handle(DeviceHandle, dev.value), a + c + extra);
        dev := None;
        WithoutDevice(l, a, c, extra);
      }
    }

    method CloseSession(v: Vendor, ghost extra: seq<Handle>, ghost ever: seq<Handle>)
      requires Holds(extra, ever) && forall h :: h in extra ==> h.kind.Key?
      modifies this`container, this`app, this`dev, this`log
      ensures Replay(log).Some? && Replay(log).value.open == One(Library, lib) + old(Left(v, extra))
      ensures Replay(log).value.ever == ever
      ensures old(Left(v, extra)) == [] ==> Replay(log).value.nested
    {
      CloseContainerIfOpen(v, extra, ever);
      CloseApplicationIfOpen(v, extra, ever);
      Disconnect(extra, ever);
      ghost var l, a, c := One(Library, lib), One(Application, app), One(Container, container);
      WithoutDevice(l, a, c, extra);
    }

    /** `finalize_error_or_success` */
    method Finalize(v: Vendor, ghost extra: seq<Handle>, ghost ever: seq<Handle>)
      requires lib.Some? && Holds(extra, ever) && forall h :: h in extra ==> h.kind.Key?
      modifies this
      ensures Ran(log, ever, old(Left(v, extra)) == []) && Replay(log).value.open == old(Left(v, extra))
    {
      ghost var left := Left(v, extra);
      CloseSession(v, extra, ever);
      CloseRuntime(left);
    }

    method OpenAppContainer(v: Vendor) returns (ok: bool)
      requires Untouched()
      modifies this
      ensures ok == InContainer(v)
      ensures ok ==> lib.Some? && Holds([], BaseOpens(v) + AppOpens(v) + ContainerOpens(v))
      ensures ok ==> One(Application, app) == AppOpens(v) && One(Container, container) == ContainerOpens(v)
      ensures !ok ==> Ran(log, BaseOpens(v) + AppOpens(v) + ContainerOpens(v), BaseTidy(v) && AppTidy(v) && ContainerTidy(v))
    {
      ghost var ever := BaseOpens(v);
      ok := OpenBase(v);
      OnlyOne(ever);
      if !ok { return; }
      ok := OpenApp(v, ever);
      ever := ever + AppOpens(v);
      OnlyOne(ever);
      if ok && v.pinAccepted {
        ok := OpenContainer(v, ever);
        ever := ever + ContainerOpens(v);
        if ok { return; }
      }
      Finalize(v, [], ever);
      return false;
    }

    /** `SKF_SetSymmKey` or `SKF_DigestInit`: the handle is a local variable of the handler. */
    method OpenKey(v: Vendor, ghost ever: seq<Handle>) returns (handle: Option<nat>)
      requires v.keyPossible && Holds([], ever)
      modifies this`log
      ensures One(Key, handle) == KeyOpens(v) && Holds(One(Key, handle), ever + KeyOpens(v))
    {
      handle := v.key.handle;
      OnlyOne(ever);
      OnlyOne(Held());
      if handle.Some? { RecordOpened(Handle(Key, handle.value)); }
    }

    method CloseKey(v: Vendor, handle: Option<nat>, ghost ever: seq<Handle>)
      requires Holds(One(Key, handle), ever)
      modifies this`log
      ensures Holds(if v.closeHandle then [] else One(Key, handle), ever)
    {
      if handle.Some? && v.closeHandle {
        assert Held() + [Handle(Key, handle.value)] + [] == Held() + One(Key, handle);
        RecordClosed(Held(), Handle(Key, handle.value), []);
      }
    }

    // ----------------------------------------------------------- the seven handlers

    method DeviceManage(v: Vendor) returns (ok: bool)
      requires Untouched()
      modifies this
      ensures ok == (Connected(v) && v.work)
      ensures Ran(log, BaseOpens(v), BaseTidy(v))
    {
      ok := OpenBase(v);
      if !ok { return; }
      Finalize(v, [], BaseOpens(v));
      return v.work;
    }

    /** The access and destroy actions need only the application. */
    method OpenForKey(v: Vendor, action: Action) returns (ok: bool)
      requires Untouched()
      modifies this
      ensures ok == KeyReached(v, action)
      ensures ok ==> lib.Some? && Holds([], KeyBaseOpens(v, action))
      ensures ok ==> One(Application, app) == AppOpens(v)
      ensures ok ==> One(Container, container) == if OnApplication(action) then [] else ContainerOpens(v)
      ensures !ok ==> Ran(log, KeyBaseOpens(v, action), KeyBaseTidy(v, action))
    {
      if !OnApplication(action) {
        ok := OpenAppContainer(v);
        return;
      }
      ghost var ever := BaseOpens(v);
      OnlyOne(ever);
      ok := OpenBase(v);
      if !ok { return; }
      ok := OpenApp(v, ever);
      if !ok { Finalize(v, [], ever + AppOpens(v)); }
    }

    /** Importing closes its key handle only when the vendor's call succeeds. */
    method KeyManage(v: Vendor, action: Action) returns (ok: bool)
      requires Untouched()
      modifies this
      ensures ok == (KeyReached(v, action) && if action == ActionImportKey then v.keyPossible && v.key.ok else v.work)
      ensures Ran(log, KeyManageOpens(v, action), KeyManageTidy(v, action))
    {
      ghost var extra, ever := [], KeyBaseOpens(v, action);
      OnlyOne(ever);
      ok := OpenForKey(v, action);
      if !ok { return; }
      ok := v.work;
      if action == ActionImportKey {
        ok := v.keyPossible && v.key.ok;
        if v.keyPossible {
          var handle := OpenKey(v, ever);
          extra, ever := One(Key, handle), ever + KeyOpens(v);
          if v.key.ok {
            CloseKey(v, handle, ever);
            extra := if v.closeHandle then [] else extra;
          }
        }
      }
      Finalize(v, extra, ever);
    }

    method AsymCrypto(v: Vendor, action: Action, inputOk: bool) returns (ok: bool)
      requires Untouched()
      modifies this
      ensures ok == (inputOk && (if OnDevice(action) then Connected(v) else InContainer(v)) && v.work)
      ensures Ran(log, AsymOpens(v, action, inputOk), AsymTidy(v, action, inputOk))
    {
      if !inputOk { return false; }
      if OnDevice(action) {
        ok := OpenBase(v);
      } else {
        ok := OpenAppContainer(v);
      }
      if !ok { return; }
      Finalize(v, [], AsymOpens(v, action, inputOk));
      return v.work;
    }

    /** `sym_crypto` and `hash_ops`: a key or hash handle on the device, closed at the common exit.
        `inputOk` covers the checks before the library is opened. */
    method SymOrHash(v: Vendor, inputOk: bool) returns (ok: bool)
      requires Untouched()
      modifies this
      ensures ok == (inputOk && Connected(v) && v.keyPossible && v.key.ok && v.work)
      ensures Ran(log, SymOpens(v, inputOk), inputOk ==> BaseTidy(v) && (Connected(v) ==> KeyTidy(v)))
    {
      if !inputOk { return false; }
      ghost var extra, ever := [], BaseOpens(v);
      OnlyOne(ever);
      ok := OpenBase(v);
      if !ok { return; }
      ok := v.keyPossible && v.key.ok && v.work;
      if v.keyPossible {
        var handle := OpenKey(v, ever);
        ever := ever + KeyOpens(v);
        CloseKey(v, handle, ever);
        extra := if v.closeHandle then [] else One(Key, handle);
      }
      Finalize(v, extra, ever);
    }

    method FileOps(v: Vendor, named: bool) returns (ok: bool)
      requires Untouched()
      modifies this
      ensures ok == (named && InApplication(v) && v.work)
      ensures Ran(log, if named then BaseOpens(v) + AppOpens(v) else [], named ==> BaseTidy(v) && AppTidy(v))
    {
      if !named { return false; }
      ghost var ever := BaseOpens(v);
      OnlyOne(ever);
      ok := OpenBase(v);
      if !ok { return; }
      ok := OpenApp(v, ever);
      Finalize(v, [], ever + AppOpens(v));
      return ok && v.work;
    }

    method PqcOps(v: Vendor, inputOk: bool) returns (ok: bool)
      requires Untouched()
      modifies this
      ensures ok == (inputOk && Connected(v) && v.work)
      ensures Ran(log, if inputOk then BaseOpens(v) else [], inputOk ==> BaseTidy(v))
    {
      if !inputOk { return false; }
      ok := OpenBase(v);
      if !ok { return; }
      Finalize(v, [], BaseOpens(v));
      return v.work;
    }
  }

  // ------------------------------------------------------------- what the handlers open, and when they are tidy

  predicate OnApplication(action: Action) {
    action == ActionGetPrivateKeyAccess || action == ActionReleasePrivateKeyAccess || action == ActionDestroyKey
  }

  predicate OnDevice(action: Action) { action == ActionVerify || action == ActionEncrypt }

  predicate KeyReached(v: Vendor, action: Action) {
    if OnApplication(action) then InApplication(v) else InContainer(v)
  }

  function KeyBaseOpens(v: Vendor, action: Action): seq<Handle> {
    BaseOpens(v) + AppOpens(v) + if OnApplication(action) then [] else ContainerOpens(v)
  }

  predicate KeyBaseTidy(v: Vendor, action: Action) {
    BaseTidy(v) && AppTidy(v) && (OnApplication(action) || ContainerTidy(v))
  }

  predicate Imports(v: Vendor, action: Action) { KeyReached(v, action) && action == ActionImportKey }

  function KeyManageOpens(v: Vendor, action: Action): seq<Handle> {
    KeyBaseOpens(v, action) + if Imports(v, action) then KeyOpens(v) else []
  }

  predicate KeyManageTidy(v: Vendor, action: Action) {
    KeyBaseTidy(v, action) && (Imports(v, action) ==> KeyTidy(v) && (KeyOpens(v) != [] ==> v.key.ok))
  }

  function AsymOpens(v: Vendor, action: Action, inputOk: bool): seq<Handle> {
    if !inputOk then [] else if OnDevice(action) then BaseOpens(v) else BaseOpens(v) + AppOpens(v) + ContainerOpens(v)
  }

  predicate AsymTidy(v: Vendor, action: Action, inputOk: bool) {
    inputOk ==> BaseTidy(v) && (OnDevice(action) || (AppTidy(v) && ContainerTidy(v)))
  }

  function SymOpens(v: Vendor, inputOk: bool): seq<Handle> {
    if !inputOk then [] else BaseOpens(v) + if Connected(v) then KeyOpens(v) else []
  }

  /** With a well-behaved vendor every handler is balanced. */
  lemma WellBehavedIsTidy(v: Vendor, action: Action, inputOk: bool)
    requires WellBehaved(v)
    ensures BaseTidy(v) && AppTidy(v) && ContainerTidy(v) && KeyTidy(v)
    ensures KeyManageTidy(v, action) && AsymTidy(v, action, inputOk)
  {
  }

  // ------------------------------------------------------------- what is opened when everything works

  predicate Works(a: Attempt) { a.ok && a.handle.Some? }

  /** Every opening call succeeds and writes its handle. */
  predicate AllWorks(v: Vendor) {
    && v.library.Some? && v.requiredSymbols && v.deviceNamed && Works(v.connect) && v.appPossible && Works(v.app)
    && v.pinAccepted && v.containerPossible && Works(v.container) && v.keyPossible && Works(v.key)
  }

  function Kinds(hs: seq<Handle>): seq<Kind> { seq(|hs|, i requires 0 <= i < |hs| => hs[i].kind) }

  lemma StagesOpenOne(v: Vendor)
    requires AllWorks(v)
    ensures |BaseOpens(v)| == 2 && BaseOpens(v)[0].kind == Library && BaseOpens(v)[1].kind == DeviceHandle
    ensures |AppOpens(v)| == 1 && AppOpens(v)[0].kind == Application
    ensures |ContainerOpens(v)| == 1 && ContainerOpens(v)[0].kind == Container
    ensures |KeyOpens(v)| == 1 && KeyOpens(v)[0].kind == Key
  {
  }

  /** Access to a private key and the destruction of a container take place in the application, the
      other key actions in a container of it; only an import has a key handle of its own. */
  lemma KeyActionsOpen(v: Vendor, action: Action)
    requires AllWorks(v)
    ensures action in {ActionGetPrivateKeyAccess, ActionReleasePrivateKeyAccess, ActionDestroyKey} ==>
      Kinds(KeyManageOpens(v, action)) == [Library, DeviceHandle, Application]
    ensures action in {ActionGenerateKeyPair, ActionExportPublicKey} ==>
      Kinds(KeyManageOpens(v, action)) == [Library, DeviceHandle, Application, Container]
    ensures action == ActionImportKey ==>
      Kinds(KeyManageOpens(v, action)) == [Library, DeviceHandle, Application, Container, Key]
  {
    StagesOpenOne(v);
  }

  /** Verifying and encrypting need the device alone, signing and decrypting a container of its
      application. */
  lemma AsymActionsOpen(v: Vendor, action: Action)
    requires AllWorks(v)
    ensures action in {ActionVerify, ActionEncrypt} ==> Kinds(AsymOpens(v, action, true)) == [Library, DeviceHandle]
    ensures action in {ActionSign, ActionDecrypt} ==>
      Kinds(AsymOpens(v, action, true)) == [Library, DeviceHandle, Application, Container]
  {
    StagesOpenOne(v);
  }
}
