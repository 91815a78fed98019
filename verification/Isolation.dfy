/** The key store is non-interfering: what an application sees through a provider depends on its own calls only. */
module Isolation {
  import opened Types
  import opened FileNames
  import opened OnDiskManager
  import opened KeyInfoManager

  /** A call of an application through the client of a provider. */
  datatype Request = Request(app: Name, provider: ProviderId, call: Call)

  function Ask(c: Codec, s: Store, r: Request): (a: (Store, Answer)) {
    match r.call
    case GetKeyId(k) =>
      var info := Lookup(s, KeyTriple(r.app, r.provider, k));
      (s, Id(if info.Some? then Ok(info.value.id) else Err(PsaErrorDoesNotExist)))
    case GetKeyAttributes(k) =>
      var info := Lookup(s, KeyTriple(r.app, r.provider, k));
      (s, KeyAttributes(if info.Some? then Ok(info.value.attributes) else Err(PsaErrorDoesNotExist)))
    case InsertKeyInfo(k, info, fault) =>
      var (s', result) := Insert(c, s, KeyTriple(r.app, r.provider, k), info, fault);
      (s', Done(InsertStatus(result)))
    case RemoveKeyInfo(k, fails) =>
      var (s', result) := Remove(s, KeyTriple(r.app, r.provider, k), fails);
      (s', Done(RemoveStatus(result)))
    case DoesNotExist(k) =>
      (s, Done(if Lookup(s, KeyTriple(r.app, r.provider, k)).Some? then Err(PsaErrorAlreadyExists) else Ok(())))
    case ListKeys => (s, Keys(Listing(s.mem, r.app, r.provider)))
  }

  predicate Of(r: Request, app: Name, provider: ProviderId) { r.app == app && r.provider == provider }

  /** The answers that a pair of application and provider gets in a run of requests. */
  function Answers(c: Codec, s: Store, rs: seq<Request>, app: Name, provider: ProviderId): (r: seq<Answer>)
    decreases |rs|
  {
    if rs == [] then []
    else
      var (s', a) := Ask(c, s, rs[0]);
      (if Of(rs[0], app, provider) then [a] else []) + Answers(c, s', rs[1..], app, provider)
  }

  /** The run with the requests of all other pairs deleted. */
  function Purge(rs: seq<Request>, app: Name, provider: ProviderId): (r: seq<Request>)
    decreases |rs|
  {
    if rs == [] then []
    else (if Of(rs[0], app, provider) then [rs[0]] else []) + Purge(rs[1..], app, provider)
  }

  predicate OfPair(t: KeyTriple, app: Name, provider: ProviderId) { t.app == app && t.provider == provider }

  /** Two stores have the same at a triple: mapping, file and directory in place of the file. */
  ghost predicate SameAt(s: Store, u: Store, t: KeyTriple) {
    && Lookup(s, t) == Lookup(u, t)
    && FileAt(s.disk, PathOf(t)) == FileAt(u.disk, PathOf(t))
    && (PathOf(t) in s.disk.dirs <==> PathOf(t) in u.disk.dirs)
  }

  /** Two stores look alike to a pair of application and provider. */
  ghost predicate SameView(s: Store, u: Store, app: Name, provider: ProviderId) {
    forall t | OfPair(t, app, provider) :: SameAt(s, u, t)
  }

  /** The event that a request makes the store perform, if it changes the store. */
  function EventOf(r: Request): (e: Option<Event>) {
    match r.call
    case InsertKeyInfo(k, info, fault) => Some(InsertEvent(KeyTriple(r.app, r.provider, k), info, fault))
    case RemoveKeyInfo(k, fails) => Some(RemoveEvent(KeyTriple(r.app, r.provider, k), fails))
    case _ => None
  }

  lemma AskPerformsEvent(c: Codec, s: Store, r: Request)
    ensures Ask(c, s, r).0 == if EventOf(r).Some? then Step(c, s, EventOf(r).value).0 else s
    ensures EventOf(r).Some? ==> OfPair(EventOf(r).value.t, r.app, r.provider)
  {
  }

  lemma AskKeepsSaved(c: Codec, s: Store, r: Request)
    requires Saved(s.disk)
    ensures Saved(Ask(c, s, r).0.disk)
  {
    AskPerformsEvent(c, s, r);
    if EventOf(r).Some? {
      StepTouches(c, s, EventOf(r).value);
      TouchKeepsSaved(s.disk, Ask(c, s, r).0.disk, EventOf(r).value.t);
    }
  }

  /** A directory made for one pair is never in the place of a file of another pair. */
  lemma PlacesAreApart(t: KeyTriple, u: KeyTriple)
    requires PathOf(t) <= DirOf(u)
    ensures OfPair(t, u.app, u.provider)
  {
    if t.key != [] {
      FilesAreNotDirectories(t, u);
    } else {
      EmptyKeyIsDirectory(t);
      PathDepth(t);
      PathDepth(u);
      var t', u' := t.(key := []), u.(key := []);
      EmptyKeyIsDirectory(u');
      PathDepth(u');
      assert |DirOf(t)| == |DirOf(u)|;
      assert DirOf(t) == DirOf(u)[..|DirOf(u)|] == DirOf(u);
      PathOfInjective(t', u');
    }
  }

  /** A call of another pair changes nothing that this pair sees. */
  lemma OthersAreInvisible(c: Codec, s: Store, e: Event, app: Name, provider: ProviderId)
    requires !OfPair(e.t, app, provider)
    ensures SameView(Step(c, s, e).0, s, app, provider)
  {
    var s' := Step(c, s, e).0;
    StepTouches(c, s, e);
    forall t | OfPair(t, app, provider)
      ensures SameAt(s', s, t)
    {
      StepFrame(c, s, e, t);
      if PathOf(t) <= DirOf(e.t) {
        PlacesAreApart(t, e.t);
      }
    }
  }

  /** A save does the same to the file on two trees that have the same there. */
  lemma SameSave(d: FileTree, e: FileTree, dir: Path, file: Path, bytes: seq<Byte>, fault: SaveFault)
    requires !Blocked(d, dir) && !Blocked(e, dir)
    requires FileAt(d, file) == FileAt(e, file) && (file in d.dirs <==> file in e.dirs)
    ensures var (d', ok), (e', ok') := Save(d, dir, file, bytes, fault), Save(e, dir, file, bytes, fault);
            ok == ok' && FileAt(d', file) == FileAt(e', file)
            && (forall p: Path :: (p in d.dirs <==> p in e.dirs) ==> (p in d'.dirs <==> p in e'.dirs))
  {
  }

  lemma SameInsert(c: Codec, s: Store, u: Store, e: Event)
    requires e.InsertEvent? && !Blocked(s.disk, DirOf(e.t)) && !Blocked(u.disk, DirOf(e.t)) && SameAt(s, u, e.t)
    ensures Step(c, s, e).1 == Step(c, u, e).1
    ensures SameAt(Step(c, s, e).0, Step(c, u, e).0, e.t)
    ensures forall t :: SameAt(s, u, t) && t != e.t ==> SameAt(Step(c, s, e).0, Step(c, u, e).0, t)
  {
    SameSave(s.disk, u.disk, DirOf(e.t), PathOf(e.t), c.write(e.info), e.fault);
    forall t | SameAt(s, u, t) && t != e.t ensures SameAt(Step(c, s, e).0, Step(c, u, e).0, t) {
      StepFrame(c, s, e, t);
      StepFrame(c, u, e, t);
    }
  }

  lemma SameRemove(c: Codec, s: Store, u: Store, e: Event)
    requires e.RemoveEvent? && SameAt(s, u, e.t)
    ensures Step(c, s, e).1 == Step(c, u, e).1
    ensures SameAt(Step(c, s, e).0, Step(c, u, e).0, e.t)
    ensures forall t :: SameAt(s, u, t) && t != e.t ==> SameAt(Step(c, s, e).0, Step(c, u, e).0, t)
  {
    forall t | SameAt(s, u, t) && t != e.t ensures SameAt(Step(c, s, e).0, Step(c, u, e).0, t) {
      StepFrame(c, s, e, t);
      StepFrame(c, u, e, t);
    }
  }

  /** A call of the pair itself gets the same answer on two stores that look alike, and keeps them alike. */
  lemma SameCall(c: Codec, s: Store, u: Store, e: Event)
    requires Saved(s.disk) && Saved(u.disk) && SameView(s, u, e.t.app, e.t.provider)
    ensures Step(c, s, e).1 == Step(c, u, e).1
    ensures SameView(Step(c, s, e).0, Step(c, u, e).0, e.t.app, e.t.provider)
  {
    assert OfPair(e.t, e.t.app, e.t.provider);
    if e.InsertEvent? {
      NothingIsInTheWay(s.disk, e.t);
      NothingIsInTheWay(u.disk, e.t);
      SameInsert(c, s, u, e);
    } else {
      SameRemove(c, s, u, e);
    }
  }

  lemma SameAnswer(c: Codec, s: Store, u: Store, r: Request)
    requires Saved(s.disk) && Saved(u.disk) && SameView(s, u, r.app, r.provider)
    ensures Ask(c, s, r).1 == Ask(c, u, r).1
    ensures SameView(Ask(c, s, r).0, Ask(c, u, r).0, r.app, r.provider)
  {
    if EventOf(r).Some? {
      SameCall(c, s, u, EventOf(r).value);
    } else if r.call.ListKeys? {
      SameListing(s, u, r.app, r.provider);
    } else {
      assert OfPair(KeyTriple(r.app, r.provider, r.call.key), r.app, r.provider);
    }
  }

  lemma SameListing(s: Store, u: Store, app: Name, provider: ProviderId)
    requires SameView(s, u, app, provider)
    ensures Listing(s.mem, app, provider) == Listing(u.mem, app, provider)
  {
    forall k ensures k in Listing(s.mem, app, provider) <==> k in Listing(u.mem, app, provider) {
      var t := KeyTriple(app, provider, k.name);
      assert OfPair(t, app, provider) && SameAt(s, u, t);
    }
  }

  lemma OtherRequest(c: Codec, s: Store, u: Store, r: Request, app: Name, provider: ProviderId)
    requires !Of(r, app, provider) && SameView(s, u, app, provider)
    ensures SameView(Ask(c, s, r).0, u, app, provider)
  {
    AskPerformsEvent(c, s, r);
    if EventOf(r).Some? {
      OthersAreInvisible(c, s, EventOf(r).value, app, provider);
    }
  }

  lemma TakeOwn(c: Codec, s: Store, rs: seq<Request>, app: Name, provider: ProviderId)
    requires rs != [] && Of(rs[0], app, provider)
    ensures Answers(c, s, rs, app, provider) ==
        [Ask(c, s, rs[0]).1] + Answers(c, Ask(c, s, rs[0]).0, rs[1..], app, provider)
    ensures Purge(rs, app, provider) == [rs[0]] + Purge(rs[1..], app, provider)
  {
  }

  lemma SkipOther(c: Codec, s: Store, rs: seq<Request>, app: Name, provider: ProviderId)
    requires rs != [] && !Of(rs[0], app, provider)
    ensures Answers(c, s, rs, app, provider) == Answers(c, Ask(c, s, rs[0]).0, rs[1..], app, provider)
    ensures Purge(rs, app, provider) == Purge(rs[1..], app, provider)
  {
  }

  lemma {:induction false} PurgedRunLooksAlike(c: Codec, s: Store, u: Store, rs: seq<Request>, app: Name,
      provider: ProviderId)
    requires Saved(s.disk) && Saved(u.disk) && SameView(s, u, app, provider)
    ensures Answers(c, s, rs, app, provider) == Answers(c, u, Purge(rs, app, provider), app, provider)
    decreases |rs|
  {
    if rs == [] {
    } else {
      AskKeepsSaved(c, s, rs[0]);
      if Of(rs[0], app, provider) {
        OwnRequestLooksAlike(c, s, u, rs, app, provider);
      } else {
        OtherRequest(c, s, u, rs[0], app, provider);
        SkipOther(c, s, rs, app, provider);
        PurgedRunLooksAlike(c, Ask(c, s, rs[0]).0, u, rs[1..], app, provider);
      }
    }
  }

  lemma {:induction false} OwnRequestLooksAlike(c: Codec, s: Store, u: Store, rs: seq<Request>, app: Name,
      provider: ProviderId)
    requires Saved(s.disk) && Saved(u.disk) && SameView(s, u, app, provider)
    requires rs != [] && Of(rs[0], app, provider)
    ensures Answers(c, s, rs, app, provider) == Answers(c, u, Purge(rs, app, provider), app, provider)
    decreases |rs|, 0
  {
    var r, rest := rs[0], Purge(rs[1..], app, provider);
    AskKeepsSaved(c, s, r);
    AskKeepsSaved(c, u, r);
    SameAnswer(c, s, u, r);
    PurgedRunLooksAlike(c, Ask(c, s, r).0, Ask(c, u, r).0, rs[1..], app, provider);
    TakeOwn(c, s, rs, app, provider);
    TakeOwn(c, u, [r] + rest, app, provider);
    assert ([r] + rest)[1..] == rest;
  }

  /**
   In any run from a fresh mappings directory, with any file operation failing, the answers to one pair
   of application and provider are those of the run with all other pairs' requests deleted.
   */
  lemma StoreIsNonInterfering(c: Codec, rs: seq<Request>, app: Name, provider: ProviderId)
    ensures Answers(c, EMPTY, rs, app, provider) == Answers(c, EMPTY, Purge(rs, app, provider), app, provider)
  {
    PurgedRunLooksAlike(c, EMPTY, EMPTY, rs, app, provider);
  }

  /** The requests are the calls of the client: its methods do to the manager and answer what `Ask` says. */
  method Serve(client: KeyInfoManagerClient, r: Request) returns (a: Answer)
    requires r.provider == client.providerId
    modifies client.manager
    ensures (client.manager.State(), a) == Ask(client.manager.codec, old(client.manager.State()), r)
  {
    match r.call {
      case GetKeyId(k) =>
        var id := client.KeyIdOf(KeyTriple(r.app, r.provider, k), id => Some(id));
        return Id(id);
      case GetKeyAttributes(k) =>
        var attributes := client.KeyAttributesOf(KeyTriple(r.app, r.provider, k));
        return KeyAttributes(attributes);
      case InsertKeyInfo(k, info, fault) =>
        var done := client.Insert(KeyTriple(r.app, r.provider, k), info, fault);
        return Done(done);
      case RemoveKeyInfo(k, fails) =>
        var done := client.Remove(KeyTriple(r.app, r.provider, k), fails);
        return Done(done);
      case DoesNotExist(k) =>
        var done := client.DoesNotExist(KeyTriple(r.app, r.provider, k));
        return Done(done);
      case ListKeys =>
        var keys := client.ListKeysOf(r.app);
        assert (set k | k in keys) == Listing(client.manager.keyStore, r.app, r.provider);
        return Keys(set k | k in keys);
    }
  }
}
