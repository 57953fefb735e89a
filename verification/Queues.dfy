/**
 * Which Armada queue a sandbox belongs to. `resolve` waits for Lookout in its
 * middle, so it is two steps here: Begin up to the await, Settle after it.
 */
module Queues {
  import opened Common

  type Id = string

  /** A queue by its name; or, of an owner whose id is the name of a member that
      every object inherits, that member: what reading it from a map yields. */
  datatype Queue = Named(name: string) | Inherited(member: string)

  const INHERITED := {
    "constructor", "hasOwnProperty", "isPrototypeOf", "propertyIsEnumerable", "toLocaleString", "toString",
    "valueOf", "__proto__", "__defineGetter__", "__defineSetter__", "__lookupGetter__", "__lookupSetter__"
  }

  /** A map of strings that assignments to an object's keys can build: a string
      assigned to `__proto__` is not kept. */
  type QueueMap = m: map<string, string> | "__proto__" !in m

  datatype Owner = Owner(projectId: string, userId: Option<string>)

  datatype Config = Config(queue: string, queueByUser: QueueMap, queueByProject: QueueMap)

  function Default(config: Config): Queue { Named(config.queue) }

  function NamesIn(m: QueueMap): set<Queue> {
    set key | key in m :: Named(m[key])
  }

  /** Every queue a sandbox of this deployment can be in. */
  function AllQueues(config: Config): set<Queue> {
    {Default(config)} + NamesIn(config.queueByUser) + NamesIn(config.queueByProject)
  }

  predicate Mapped(config: Config) {
    |AllQueues(config)| > 1
  }

  /** `map[key]` */
  function Read(m: QueueMap, key: string): Option<Queue> {
    if key in m then Some(Named(m[key]))
    else if key in INHERITED then Some(Inherited(key))
    else None
  }

  /** The user's queue, else the project's, else the default. */
  function ForOwner(config: Config, owner: Owner): Queue {
    var byUser := if owner.userId.Some? then Read(config.queueByUser, owner.userId.value) else None;
    match OrElse(byUser, Read(config.queueByProject, owner.projectId))
    case Some(queue) => queue
    case None => Default(config)
  }

  /** Where a call that names this owner, or none, places a new sandbox. */
  function PlacesAt(config: Config, owner: Option<Owner>): Queue {
    match owner
    case None => Default(config)
    case Some(o) => ForOwner(config, o)
  }

  /** The directory's answer without a request, if it has one. */
  function Known(config: Config, remembered: map<Id, Queue>, id: Id): Option<Queue> {
    if id in remembered then Some(remembered[id])
    else if !Mapped(config) then Some(Default(config))
    else None
  }

  /** The answer once Lookout has said which queue holds the set, if any. */
  function Settled(config: Config, owner: Option<Owner>, found: Option<Queue>): Queue {
    match found
    case Some(queue) => queue
    case None => PlacesAt(config, owner)
  }

  /** The ids that decide where an owner goes are mapped, or at least are not
      the names of inherited members. */
  predicate PlainIds(config: Config, owner: Owner) {
    var mappedUser := owner.userId.Some? && owner.userId.value in config.queueByUser;
    && (owner.userId.Some? ==> mappedUser || owner.userId.value !in INHERITED)
    && (mappedUser || owner.projectId in config.queueByProject || owner.projectId !in INHERITED)
  }

  /** An owner goes to one of the deployment's queues exactly when its ids are
      plain; otherwise to no queue at all. */
  lemma {:induction false} PlacedProperly(config: Config, owner: Owner)
    ensures ForOwner(config, owner) in AllQueues(config) <==> PlainIds(config, owner)
    ensures ForOwner(config, owner).Inherited? <==> !PlainIds(config, owner)
  {
    hide INHERITED;
    if owner.userId.Some? && owner.userId.value in config.queueByUser {
      assert Named(config.queueByUser[owner.userId.value]) in NamesIn(config.queueByUser);
    } else if owner.projectId in config.queueByProject {
      assert Named(config.queueByProject[owner.projectId]) in NamesIn(config.queueByProject);
    }
  }

  /** Of the two maps the user's comes first: a mapped user's queue is the one it
      maps to, whatever the project; a mapped project counts for a user who is
      not mapped, or for none; and the default for neither. */
  lemma {:induction false} UserBeforeProject(config: Config, owner: Owner)
    requires PlainIds(config, owner)
    ensures var place, user := ForOwner(config, owner), owner.userId;
            && (user.Some? && user.value in config.queueByUser ==> place == Named(config.queueByUser[user.value]))
            && ((user.Some? ==> user.value !in config.queueByUser) && owner.projectId in config.queueByProject ==>
                  place == Named(config.queueByProject[owner.projectId]))
            && ((user.Some? ==> user.value !in config.queueByUser) && owner.projectId !in config.queueByProject ==>
                  place == Named(config.queue))
  {
    hide INHERITED;
  }

  /** So the project map has no part in where a mapped user goes, nor the user
      map in where those go whom it does not name. */
  lemma {:induction false} OtherMapIsIdle(a: Config, b: Config, owner: Owner)
    requires PlainIds(a, owner) && PlainIds(b, owner) && owner.userId.Some?
    ensures a.queueByUser == b.queueByUser && owner.userId.value in a.queueByUser ==>
              ForOwner(a, owner) == ForOwner(b, owner)
    ensures a.queue == b.queue && a.queueByProject == b.queueByProject
            && owner.userId.value !in a.queueByUser && owner.userId.value !in b.queueByUser ==>
              ForOwner(a, owner) == ForOwner(b, owner)
    ensures owner.userId.value !in a.queueByUser ==>
              ForOwner(a, owner) == ForOwner(a, Owner(owner.projectId, None))
  {
    hide INHERITED;
    UserBeforeProject(a, owner);
    UserBeforeProject(b, owner);
  }

  /** One that does not: any user called `constructor`, unless mapped. */
  lemma {:induction false} ConstructorIsMisplaced(config: Config, projectId: string)
    requires "constructor" !in config.queueByUser
    ensures ForOwner(config, Owner(projectId, Some("constructor"))) == Inherited("constructor")
  {
    PlacedProperly(config, Owner(projectId, Some("constructor")));
  }

  /** A set with two members is larger than one. */
  lemma {:induction false} TwoMembers<T>(s: set<T>, x: T, y: T)
    requires x in s && y in s && x != y
    ensures |s| > 1
  {
    assert |s - {x}| == |s| - 1 && y in s - {x};
  }

  /** Without a map there is one queue, so no request is needed to know it. */
  lemma {:induction false} UnmappedIsDefault(config: Config, owner: Owner)
    requires !Mapped(config) && PlainIds(config, owner)
    ensures ForOwner(config, owner) == Default(config)
  {
    PlacedProperly(config, owner);
    if ForOwner(config, owner) != Default(config) {
      TwoMembers(AllQueues(config), ForOwner(config, owner), Default(config));
    }
  }

  /** Mapped means that some owner with plain ids is placed outside the default
      queue. */
  lemma {:induction false} MappedExactly(config: Config)
    ensures Mapped(config)
            <==> exists owner: Owner :: PlainIds(config, owner) && ForOwner(config, owner) != Default(config)
  {
    hide INHERITED;
    if Mapped(config) {
      if AllQueues(config) == {Default(config)} {
        assert false;
      }
      var other :| other in AllQueues(config) && other != Default(config);
      OwnerOf(config, other);
    } else {
      forall owner: Owner | PlainIds(config, owner) ensures ForOwner(config, owner) == Default(config) {
        UnmappedIsDefault(config, owner);
      }
    }
  }

  /** Every queue but the default has an owner that is placed there. */
  lemma {:induction false} OwnerOf(config: Config, queue: Queue)
    requires queue in AllQueues(config) && queue != Default(config)
    ensures exists owner: Owner :: PlainIds(config, owner) && ForOwner(config, owner) == queue
  {
    hide INHERITED;
    if user :| user in config.queueByUser && Named(config.queueByUser[user]) == queue {
      var owner := Owner("", Some(user));
      assert ForOwner(config, owner) == queue && PlainIds(config, owner);
    } else {
      var project :| project in config.queueByProject && Named(config.queueByProject[project]) == queue;
      var owner := Owner(project, None);
      assert ForOwner(config, owner) == queue && PlainIds(config, owner);
    }
  }

  class QueueDirectory {
    const config: Config
    const mapped: bool
    var remembered: map<Id, Queue>

    ghost predicate Valid()
      reads this
    {
      mapped == Mapped(config)
    }

    constructor (config: Config)
      ensures Valid() && this.config == config && remembered == map[]
    {
      this.config := config;
      mapped := |{Default(config)} + NamesIn(config.queueByUser) + NamesIn(config.queueByProject)| > 1;
      remembered := map[];
    }

    method Remember(id: Id, queue: Queue)
      requires Valid()
      modifies this
      ensures Valid() && remembered == old(remembered)[id := queue]
    {
      remembered := remembered[id := queue];
    }

    method Forget(id: Id)
      requires Valid()
      modifies this
      ensures Valid() && remembered == old(remembered) - {id}
    {
      remembered := remembered - {id};
    }

    /** resolve up to the request; None when Lookout has to be asked. */
    method Begin(id: Id) returns (known: Option<Queue>)
      requires Valid()
      ensures known == Known(config, remembered, id)
      ensures id in remembered ==> known == Some(remembered[id])
      ensures id !in remembered ==>
                known == if exists owner: Owner :: PlainIds(config, owner) && ForOwner(config, owner) != Named(config.queue)
                         then None else Some(Named(config.queue))
    {
      if id in remembered { return Some(remembered[id]); }
      MappedExactly(config);
      if !mapped { return Some(Default(config)); }
      known := None;
    }

    /** resolve once Lookout has answered. What another call has remembered in
        the meantime is overwritten, not looked at. */
    method Settle(id: Id, owner: Option<Owner>, found: Option<Queue>) returns (queue: Queue)
      requires Valid()
      modifies this
      ensures Valid() && queue == Settled(config, owner, found)
      ensures remembered == old(remembered)[id := queue]
      ensures found.Some? ==> queue == found.value
      ensures found == None && owner == None ==> queue == Named(config.queue)
      ensures found == None && owner.Some? ==>
                (queue in AllQueues(config) <==> PlainIds(config, owner.value))
      ensures found == None && owner.Some? && PlainIds(config, owner.value) ==>
                var byUser, byProject, user := config.queueByUser, config.queueByProject, owner.value.userId;
                queue == Named(
                  if user.Some? && user.value in byUser then byUser[user.value]
                  else if owner.value.projectId in byProject then byProject[owner.value.projectId]
                  else config.queue)
    {
      if found.Some? {
        Remember(id, found.value);
        return found.value;
      }
      queue := Default(config);
      if owner.Some? {
        PlacedProperly(config, owner.value);
        if PlainIds(config, owner.value) { UserBeforeProject(config, owner.value); }
        var byUser := if owner.value.userId.Some? then Read(config.queueByUser, owner.value.userId.value) else None;
        var byProject := Read(config.queueByProject, owner.value.projectId);
        if byUser.Some? {
          queue := byUser.value;
        } else if byProject.Some? {
          queue := byProject.value;
        }
      }
      Remember(id, queue);
    }
  }
}
