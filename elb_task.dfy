/**
  The classic ELB task as the kops executor drives it: the ELB task object, which `Find` backfills
  and `Normalize` sorts in place; the ELB API, seen as the log of the requests it is sent
  and a fixed answer to each; `RenderAWS`, specified by the run of requests it makes; and
  `RenderTerraform`, specified by the resource it renders.
*/
module ElbTask {
  import opened Wrappers
  import opened Sorting
  import opened Strconv
  import opened Elb
  import Hcl

  // ------------------------------------------------------------------ requests and runs

  /** The fields of an update's change set `RenderAWS` reads; `None` means unchanged. */
  datatype Changes = Changes(
    subnets: Option<seq<ResourceRef>>,
    securityGroups: Option<seq<ResourceRef>>,
    listeners: Option<map<string, Listener>>,
    healthCheck: Option<HealthCheck>)

  /** The requests `RenderAWS` sends, with the fields it fills in. */
  datatype Request =
    | CreateLoadBalancer(name: string, scheme: Option<string>, subnets: seq<string>,
                         securityGroups: seq<string>, listeners: seq<AwsListener>)
    | DescribeLoadBalancers(names: seq<string>)
    | DetachFromSubnets(name: string, subnets: seq<string>)
    | AttachToSubnets(name: string, subnets: seq<string>)
    | ApplySecurityGroups(name: string, securityGroups: seq<string>)
    | DeleteListeners(name: string, ports: seq<Int32>)
    | CreateListeners(name: string, listeners: seq<AwsListener>)
    | AddTags(name: string, tags: map<string, string>)
    | RemoveTags(name: string, tags: map<string, string>)
    | ConfigureHealthCheck(name: string, healthCheck: HealthCheck)
    | ModifyAttributes(name: string)

  /** The request is about the ELB called `name`. */
  predicate Concerns(req: Request, name: string)
  {
    if req.DescribeLoadBalancers? then req.names == [name] else req.name == name
  }

  /** A run of requests: those sent, in order, and the error that ended the run, if any. */
  datatype Run = Run(sent: seq<Request>, err: Option<Error>)

  const Done: Run := Run([], None)

  function Fail(e: Error): Run
  {
    Run([], Some(e))
  }

  /** `r1`, then `r2` unless `r1` failed. */
  function Then(r1: Run, r2: Run): Run
  {
    if r1.err.Some? then r1 else Run(r1.sent + r2.sent, r2.err)
  }

  /** An error reported under a context (`%v`), or as it is. */
  function Wrap(context: Option<string>, e: Error): Error
  {
    if context.Some? then Described(context.value, e) else e
  }

  /** One request, answered by `answer`, its error reported under `context`. */
  function Step(answer: Request -> Option<Error>, req: Request, context: Option<string>): Run
  {
    Run([req], if answer(req).Some? then Some(Wrap(context, answer(req).value)) else None)
  }

  /** The create request of a first creation. */
  function CreateRequest(e: LoadBalancer, name: string, ls: seq<AwsListener>): Request
  {
    CreateLoadBalancer(name, e.scheme, Ids(e.subnets), Ids(e.securityGroups), ls)
  }

  /**
    A first creation: translate the listeners, create the ELB, then look it up again by name
    for its hosted zone.
  */
  function CreateRun(answer: Request -> Option<Error>, pages: seq<Page>, e: LoadBalancer, name: string,
                     order: seq<string>): Run
  {
    match TranslatePorts(order, e.listeners, 32, MapToAws)
    case Err(err) => Fail(err)
    case Ok(ls) =>
      Then(Step(answer, CreateRequest(e, name, ls), Some("error creating ELB")),
           match FindByName(pages, name)
           case Err(err) => Run([DescribeLoadBalancers([name])], Some(err))
           case Ok(None) => Run([DescribeLoadBalancers([name])], Some(NotFoundAfterCreate(name)))
           case Ok(Some(_)) => Run([DescribeLoadBalancers([name])], None))
  }

  /** The subnet part of an update: detach the unwanted subnets, then attach the missing ones. */
  function SubnetRun(answer: Request -> Option<Error>, name: string, expected: seq<ResourceRef>,
                     actual: seq<ResourceRef>): Run
  {
    var detach := SubnetsToDetach(expected, actual);
    var attach := SubnetsToAttach(expected, actual);
    Then(if |detach| > 0 then Step(answer, DetachFromSubnets(name, detach), Some("Error detaching Load Balancer from old subnets"))
         else Done,
         if |attach| > 0 then Step(answer, AttachToSubnets(name, attach), Some("Error attaching Load Balancer to new subnets"))
         else Done)
  }

  /**
    The listener part of an update: look the ELB up, delete its port 443 listener if it
    exists (an error there is ignored), then create the changed listeners.
  */
  function ListenerRun(answer: Request -> Option<Error>, pages: seq<Page>, name: string,
                       m: map<string, Listener>, order: seq<string>): Run
  {
    var lookup := FindByName(pages, name);
    if lookup.Err? then
      Run([DescribeLoadBalancers([name])], Some(Described("error getting load balancer by name", lookup.error)))
    else
      var sent := [DescribeLoadBalancers([name])] + (if lookup.value.Some? then [DeleteListeners(name, [443])] else []);
      Then(Run(sent, None),
           match TranslatePorts(order, m, 32, MapToAws)
           case Err(err) => Fail(err)
           case Ok(ls) => Step(answer, CreateListeners(name, ls), Some("error creating LoadBalancerListeners")))
  }

  /** An update of an existing ELB `a`: subnets, security groups, listeners, as far as they changed. */
  function UpdateRun(answer: Request -> Option<Error>, pages: seq<Page>, e: LoadBalancer, a: LoadBalancer,
                     changes: Changes, order: seq<string>): Run
  {
    var name := a.loadBalancerName.GetOr("");
    Then(if changes.subnets.Some? then SubnetRun(answer, name, e.subnets, a.subnets) else Done,
         GroupsAndListenersRun(answer, pages, e, name, changes, order))
  }

  /** The security group and listener parts of an update of the ELB `name`. */
  function GroupsAndListenersRun(answer: Request -> Option<Error>, pages: seq<Page>, e: LoadBalancer, name: string,
                                 changes: Changes, order: seq<string>): Run
  {
    Then(if changes.securityGroups.Some? then
           Step(answer, ApplySecurityGroups(name, Ids(e.securityGroups)), Some("Error updating security groups on Load Balancer"))
         else Done,
         if changes.listeners.Some? then ListenerRun(answer, pages, name, changes.listeners.value, order) else Done)
  }

  /** What every creation or update ends with: tags, the health check if it changed, the attributes. */
  function TailRun(answer: Request -> Option<Error>, name: string, e: LoadBalancer, changes: Changes): Run
  {
    Then(Step(answer, AddTags(name, e.tags), None),
    Then(Step(answer, RemoveTags(name, e.tags), None),
    Then(if changes.healthCheck.Some? && e.healthCheck.Some? then
           Step(answer, ConfigureHealthCheck(name, e.healthCheck.value), Some("error configuring health checks on ELB"))
         else Done,
         Step(answer, ModifyAttributes(name), None))))
  }

  /** `RenderAWS`: nothing for a shared ELB; otherwise a creation or an update, then the common tail. */
  function RenderAwsRun(answer: Request -> Option<Error>, pages: seq<Page>, e: LoadBalancer, a: Option<LoadBalancer>,
                        changes: Changes, order: seq<string>): Run
  {
    if e.shared.GetOr(false) then Done
    else if a.Some? then
      Then(UpdateRun(answer, pages, e, a.value, changes, order), TailRun(answer, a.value.loadBalancerName.GetOr(""), e, changes))
    else if e.loadBalancerName.None? then Fail(RequiredField("LoadBalancerName"))
    else
      Then(CreateRun(answer, pages, e, e.loadBalancerName.value, order), TailRun(answer, e.loadBalancerName.value, e, changes))
  }

  /** The listener map whose keys `RenderAWS` iterates: the desired one on creation, the changed one on update. */
  function IteratedListeners(e: LoadBalancer, a: Option<LoadBalancer>, changes: Changes): map<string, Listener>
  {
    if a.None? then e.listeners else changes.listeners.GetOr(map[])
  }

  /** The desired task after a first creation: the DNS name of the answer, the hosted zone of the lookup. */
  function CreatedState(answer: Request -> Option<Error>, pages: seq<Page>, createdDnsName: Option<string>,
                        e: LoadBalancer, name: string, order: seq<string>): LoadBalancer
  {
    match TranslatePorts(order, e.listeners, 32, MapToAws)
    case Err(_) => e
    case Ok(ls) =>
      if answer(CreateRequest(e, name, ls)).Some? then e
      else
        var created := e.(dnsName := createdDnsName);
        match FindByName(pages, name)
        case Ok(Some(lb)) => created.(hostedZoneId := lb.canonicalHostedZoneNameId)
        case _ => created
  }

  /** The desired task after `RenderAWS`: only a first creation changes it. */
  function RenderedState(answer: Request -> Option<Error>, pages: seq<Page>, createdDnsName: Option<string>,
                         e: LoadBalancer, a: Option<LoadBalancer>, order: seq<string>): LoadBalancer
  {
    if e.shared.GetOr(false) || a.Some? || e.loadBalancerName.None? then e
    else CreatedState(answer, pages, createdDnsName, e, e.loadBalancerName.value, order)
  }

  // ------------------------------------------------------------------ properties of RenderAWS

  /** Every request of the run concerns the ELB called `name`. */
  predicate ConcernsOnly(run: Run, name: string)
  {
    forall req :: req in run.sent ==> Concerns(req, name)
  }

  /** The run detaches and attaches exactly the subnet delta between `expected` and `actual`. */
  predicate SubnetRequestsExact(run: Run, expected: seq<ResourceRef>, actual: seq<ResourceRef>)
  {
    forall req :: req in run.sent ==>
      (req.DetachFromSubnets? ==> req.subnets == SubnetsToDetach(expected, actual))
      && (req.AttachToSubnets? ==> req.subnets == SubnetsToAttach(expected, actual))
  }

  /** Appending a run to a log, when the first part succeeded. */
  lemma ThenAppend(log: seq<Request>, r1: Run, r2: Run)
    requires r1.err.None?
    ensures log + Then(r1, r2).sent == (log + r1.sent) + r2.sent
    ensures Then(r1, r2).err == r2.err
  {
  }

  /** A run's requests come from its parts. */
  lemma ThenSent(r1: Run, r2: Run)
    ensures forall x :: x in Then(r1, r2).sent ==> x in r1.sent || x in r2.sent
  {
  }

  lemma TailConcerns(answer: Request -> Option<Error>, name: string, e: LoadBalancer, changes: Changes,
                     expected: seq<ResourceRef>, actual: seq<ResourceRef>)
    ensures ConcernsOnly(TailRun(answer, name, e, changes), name)
    ensures SubnetRequestsExact(TailRun(answer, name, e, changes), expected, actual)
  {
    var add := Step(answer, AddTags(name, e.tags), None);
    var remove := Step(answer, RemoveTags(name, e.tags), None);
    var hc := if changes.healthCheck.Some? && e.healthCheck.Some? then
                Step(answer, ConfigureHealthCheck(name, e.healthCheck.value), Some("error configuring health checks on ELB"))
              else Done;
    var attrs := Step(answer, ModifyAttributes(name), None);
    StepKeeps(answer, AddTags(name, e.tags), None, name, expected, actual);
    StepKeeps(answer, RemoveTags(name, e.tags), None, name, expected, actual);
    if changes.healthCheck.Some? && e.healthCheck.Some? {
      StepKeeps(answer, ConfigureHealthCheck(name, e.healthCheck.value), Some("error configuring health checks on ELB"),
                name, expected, actual);
    }
    StepKeeps(answer, ModifyAttributes(name), None, name, expected, actual);
    ThenKeeps(hc, attrs, name, expected, actual);
    ThenKeeps(remove, Then(hc, attrs), name, expected, actual);
    ThenKeeps(add, Then(remove, Then(hc, attrs)), name, expected, actual);
  }


  /** Both properties carry over from the parts of a run to the whole. */
  lemma ThenKeeps(r1: Run, r2: Run, name: string, expected: seq<ResourceRef>, actual: seq<ResourceRef>)
    requires ConcernsOnly(r1, name) && ConcernsOnly(r2, name)
    requires SubnetRequestsExact(r1, expected, actual) && SubnetRequestsExact(r2, expected, actual)
    ensures ConcernsOnly(Then(r1, r2), name) && SubnetRequestsExact(Then(r1, r2), expected, actual)
  {
    ThenSent(r1, r2);
  }

  lemma StepKeeps(answer: Request -> Option<Error>, req: Request, context: Option<string>, name: string,
                  expected: seq<ResourceRef>, actual: seq<ResourceRef>)
    requires Concerns(req, name) && !req.DetachFromSubnets? && !req.AttachToSubnets?
    ensures ConcernsOnly(Step(answer, req, context), name)
    ensures SubnetRequestsExact(Step(answer, req, context), expected, actual)
  {
  }

  lemma SubnetRunKeeps(answer: Request -> Option<Error>, name: string, expected: seq<ResourceRef>, actual: seq<ResourceRef>)
    ensures ConcernsOnly(SubnetRun(answer, name, expected, actual), name)
    ensures SubnetRequestsExact(SubnetRun(answer, name, expected, actual), expected, actual)
  {
    var detach := SubnetsToDetach(expected, actual);
    var attach := SubnetsToAttach(expected, actual);
    var r1 := if |detach| > 0 then Step(answer, DetachFromSubnets(name, detach), Some("Error detaching Load Balancer from old subnets"))
              else Done;
    var r2 := if |attach| > 0 then Step(answer, AttachToSubnets(name, attach), Some("Error attaching Load Balancer to new subnets"))
              else Done;
    ThenKeeps(r1, r2, name, expected, actual);
  }

  lemma ListenerRunKeeps(answer: Request -> Option<Error>, pages: seq<Page>, name: string, m: map<string, Listener>,
                         order: seq<string>, expected: seq<ResourceRef>, actual: seq<ResourceRef>)
    ensures ConcernsOnly(ListenerRun(answer, pages, name, m, order), name)
    ensures SubnetRequestsExact(ListenerRun(answer, pages, name, m, order), expected, actual)
  {
    var lookup := FindByName(pages, name);
    if lookup.Ok? {
      var sent := [DescribeLoadBalancers([name])] + (if lookup.value.Some? then [DeleteListeners(name, [443])] else []);
      var rest := match TranslatePorts(order, m, 32, MapToAws)
                  case Err(err) => Fail(err)
                  case Ok(ls) => Step(answer, CreateListeners(name, ls), Some("error creating LoadBalancerListeners"));
      ThenKeeps(Run(sent, None), rest, name, expected, actual);
    }
  }

  lemma UpdateConcerns(answer: Request -> Option<Error>, pages: seq<Page>, e: LoadBalancer, a: LoadBalancer,
                       changes: Changes, order: seq<string>)
    ensures ConcernsOnly(UpdateRun(answer, pages, e, a, changes, order), a.loadBalancerName.GetOr(""))
    ensures SubnetRequestsExact(UpdateRun(answer, pages, e, a, changes, order), e.subnets, a.subnets)
  {
    var name := a.loadBalancerName.GetOr("");
    var sub := if changes.subnets.Some? then SubnetRun(answer, name, e.subnets, a.subnets) else Done;
    SubnetRunKeeps(answer, name, e.subnets, a.subnets);
    var sg := if changes.securityGroups.Some? then
                Step(answer, ApplySecurityGroups(name, Ids(e.securityGroups)), Some("Error updating security groups on Load Balancer"))
              else Done;
    StepKeeps(answer, ApplySecurityGroups(name, Ids(e.securityGroups)), Some("Error updating security groups on Load Balancer"),
              name, e.subnets, a.subnets);
    var ls := if changes.listeners.Some? then ListenerRun(answer, pages, name, changes.listeners.value, order) else Done;
    if changes.listeners.Some? {
      ListenerRunKeeps(answer, pages, name, changes.listeners.value, order, e.subnets, a.subnets);
    }
    ThenKeeps(sg, ls, name, e.subnets, a.subnets);
    ThenKeeps(sub, Then(sg, ls), name, e.subnets, a.subnets);
  }

  lemma CreateConcerns(answer: Request -> Option<Error>, pages: seq<Page>, e: LoadBalancer, name: string,
                       order: seq<string>)
    ensures ConcernsOnly(CreateRun(answer, pages, e, name, order), name)
    ensures SubnetRequestsExact(CreateRun(answer, pages, e, name, order), [], [])
  {
  }

  /** Every request `RenderAWS` sends concerns the one ELB being rendered. */
  lemma RenderAwsConcernsOneElb(answer: Request -> Option<Error>, pages: seq<Page>, e: LoadBalancer,
                                a: Option<LoadBalancer>, changes: Changes, order: seq<string>)
    ensures ConcernsOnly(RenderAwsRun(answer, pages, e, a, changes, order),
                         if a.Some? then a.value.loadBalancerName.GetOr("") else e.loadBalancerName.GetOr(""))
  {
    var name := if a.Some? then a.value.loadBalancerName.GetOr("") else e.loadBalancerName.GetOr("");
    if !e.shared.GetOr(false) && (a.Some? || e.loadBalancerName.Some?) {
      TailConcerns(answer, name, e, changes, [], []);
      if a.Some? {
        UpdateConcerns(answer, pages, e, a.value, changes, order);
        ThenSent(UpdateRun(answer, pages, e, a.value, changes, order), TailRun(answer, name, e, changes));
      } else {
        CreateConcerns(answer, pages, e, name, order);
        ThenSent(CreateRun(answer, pages, e, name, order), TailRun(answer, name, e, changes));
      }
    }
  }

  /**
    An update never detaches or attaches a subnet that is both wanted and attached, and the
    subnets it detaches and attaches are exactly the delta.
  */
  lemma UpdateSubnetsSpec(answer: Request -> Option<Error>, pages: seq<Page>, e: LoadBalancer,
                          a: LoadBalancer, changes: Changes, order: seq<string>)
    ensures SubnetRequestsExact(RenderAwsRun(answer, pages, e, Some(a), changes, order), e.subnets, a.subnets)
    ensures forall req :: req in RenderAwsRun(answer, pages, e, Some(a), changes, order).sent
                          && (req.DetachFromSubnets? || req.AttachToSubnets?) ==>
              forall x :: x in req.subnets ==> !(x in Ids(e.subnets) && x in Ids(a.subnets))
  {
    var name := a.loadBalancerName.GetOr("");
    if !e.shared.GetOr(false) {
      UpdateConcerns(answer, pages, e, a, changes, order);
      TailConcerns(answer, name, e, changes, e.subnets, a.subnets);
      ThenKeeps(UpdateRun(answer, pages, e, a, changes, order), TailRun(answer, name, e, changes), name, e.subnets, a.subnets);
    }
    DeltaUntouched(RenderAwsRun(answer, pages, e, Some(a), changes, order), e.subnets, a.subnets);
  }

  /** A run that detaches and attaches exactly the delta never touches a subnet on both sides. */
  lemma DeltaUntouched(run: Run, expected: seq<ResourceRef>, actual: seq<ResourceRef>)
    requires SubnetRequestsExact(run, expected, actual)
    ensures forall req :: req in run.sent && (req.DetachFromSubnets? || req.AttachToSubnets?) ==>
              forall x :: x in req.subnets ==> !(x in Ids(expected) && x in Ids(actual))
  {
    SubnetDelta(expected, actual);
  }


  /**
    A first creation sends first the create request: the desired name, scheme, subnet and
    security group IDs in order, and one listener per key of the listener map, in iteration
    order.
  */
  lemma CreateRequestSpec(answer: Request -> Option<Error>, pages: seq<Page>, e: LoadBalancer,
                          changes: Changes, order: seq<string>)
    requires !e.shared.GetOr(false) && e.loadBalancerName.Some?
    requires forall k :: k in order ==> k in e.listeners && ParseInt(k, 32).Some?
    ensures var run := RenderAwsRun(answer, pages, e, None, changes, order);
            |run.sent| > 0 && run.sent[0].CreateLoadBalancer?
            && run.sent[0].name == e.loadBalancerName.value && run.sent[0].scheme == e.scheme
            && run.sent[0].subnets == Ids(e.subnets) && run.sent[0].securityGroups == Ids(e.securityGroups)
            && |run.sent[0].listeners| == |order|
            && forall i :: 0 <= i < |order| ==>
                 run.sent[0].listeners[i] == MapToAws(e.listeners[order[i]], ParseInt(order[i], 32).value)
  {
    TranslatePortsSpec(order, e.listeners, 32, MapToAws);
    var name := e.loadBalancerName.value;
    var ls := TranslatePorts(order, e.listeners, 32, MapToAws).value;
    var create := CreateRun(answer, pages, e, name, order);
    assert create.sent[0] == CreateRequest(e, name, ls);
  }

  /** A successful creation or update ends by setting the attributes, after the tags were applied. */
  lemma SuccessfulRunTail(answer: Request -> Option<Error>, pages: seq<Page>, e: LoadBalancer,
                          a: Option<LoadBalancer>, changes: Changes, order: seq<string>)
    requires !e.shared.GetOr(false) && (a.Some? || e.loadBalancerName.Some?)
    ensures var run := RenderAwsRun(answer, pages, e, a, changes, order);
            var name := if a.Some? then a.value.loadBalancerName.GetOr("") else e.loadBalancerName.value;
            run.err.None? ==>
              |run.sent| >= 3 && run.sent[|run.sent| - 1] == ModifyAttributes(name)
              && AddTags(name, e.tags) in run.sent && RemoveTags(name, e.tags) in run.sent
  {
    var name := if a.Some? then a.value.loadBalancerName.GetOr("") else e.loadBalancerName.value;
    var tail := TailRun(answer, name, e, changes);
    var first := if a.Some? then UpdateRun(answer, pages, e, a.value, changes, order)
                 else CreateRun(answer, pages, e, name, order);
    assert RenderAwsRun(answer, pages, e, a, changes, order) == Then(first, tail);
    TailSucceeded(answer, name, e, changes);
    ThenEndsWith(first, tail, AddTags(name, e.tags), RemoveTags(name, e.tags), ModifyAttributes(name),
                 if changes.healthCheck.Some? && e.healthCheck.Some? then [ConfigureHealthCheck(name, e.healthCheck.value)] else []);
  }

  /** A successful run whose successful second part sends `[x, y] + mid + [z]` ends with `z` and sent `x` and `y`. */
  lemma ThenEndsWith(first: Run, tail: Run, x: Request, y: Request, z: Request, mid: seq<Request>)
    requires tail.err.None? ==> tail.sent == [x, y] + mid + [z]
    ensures var run := Then(first, tail);
            run.err.None? ==> |run.sent| >= 3 && run.sent[|run.sent| - 1] == z && x in run.sent && y in run.sent
  {
    var run := Then(first, tail);
    if run.err.None? {
      assert run.sent == first.sent + tail.sent;
      assert run.sent[|first.sent|] == x && run.sent[|first.sent| + 1] == y;
    }
  }

  /** A tail that succeeded sent the tags, the health check if it changed, and the attributes, in that order. */
  lemma TailSucceeded(answer: Request -> Option<Error>, name: string, e: LoadBalancer, changes: Changes)
    ensures TailRun(answer, name, e, changes).err.None? ==>
            TailRun(answer, name, e, changes).sent
            == [AddTags(name, e.tags), RemoveTags(name, e.tags)]
               + (if changes.healthCheck.Some? && e.healthCheck.Some? then [ConfigureHealthCheck(name, e.healthCheck.value)] else [])
               + [ModifyAttributes(name)]
  {
  }


  /** A shared ELB is inert: not created, no request sent, no resource rendered. */
  lemma SharedIsInert(answer: Request -> Option<Error>, pages: seq<Page>, e: LoadBalancer, a: Option<LoadBalancer>,
                      changes: Changes, order: seq<string>, buildTags: map<string, string>,
                      subnetLink: ResourceRef -> Hcl.Literal, sgLink: ResourceRef -> Hcl.Literal)
    requires e.shared == Some(true)
    ensures !ShouldCreate(e)
    ensures RenderAwsRun(answer, pages, e, a, changes, order) == Done
    ensures RenderedState(answer, pages, None, e, a, order) == e
    ensures TerraformRendering(e, buildTags, subnetLink, sgLink, order) == Ok(None)
  {
  }

  // ------------------------------------------------------------------ the ELB API

  /**
    The ELB API as `RenderAWS` uses it: every request is logged, and answered with the error
    `answer` gives it, if any; `DescribeLoadBalancers` pages through `pages`; a created ELB
    gets the DNS name `createdDnsName`.
  */
  class ElbApi {
    var log: seq<Request>
    const answer: Request -> Option<Error>
    const pages: seq<Page>
    const createdDnsName: Option<string>

    constructor(answer: Request -> Option<Error>, pages: seq<Page>, createdDnsName: Option<string>)
      ensures log == [] && this.answer == answer && this.pages == pages && this.createdDnsName == createdDnsName
    {
      log := [];
      this.answer := answer;
      this.pages := pages;
      this.createdDnsName := createdDnsName;
    }

    /** Sends one request. */
    method Send(req: Request, context: Option<string>) returns (err: Option<Error>)
      modifies this
      ensures log == old(log) + Step(answer, req, context).sent
      ensures err == Step(answer, req, context).err
    {
      log := log + [req];
      var a := answer(req);
      err := if a.Some? then Some(Wrap(context, a.value)) else None;
    }

    /** `describeLoadBalancers`: fetches page after page and keeps what the filter keeps. */
    method DescribeAll(keep: LbDescription -> bool) returns (r: Result<seq<LbDescription>, Error>)
      ensures r == Listing(pages, keep)
    {
      var found: seq<LbDescription> := [];
      var i := 0;
      while i < |pages|
        invariant 0 <= i <= |pages|
        invariant Listing(pages[..i], keep) == Ok(found)
      {
        assert pages[..i + 1][..i] == pages[..i];
        match pages[i]
        case Err(e) =>
          ListingPrefixError(pages, i + 1, keep);
          return Err(Wrapped("error listing ELBs", e));
        case Ok(ds) =>
          var kept := FilterPage(ds, keep);
          found := found + kept;
        i := i + 1;
      }
      assert pages[..i] == pages;
      r := Ok(found);
    }

    /** `findLoadBalancerByLoadBalancerName`, as one logged request. */
    method FindLoadBalancerByName(name: string) returns (r: Result<Option<LbDescription>, Error>)
      modifies this
      ensures log == old(log) + [DescribeLoadBalancers([name])]
      ensures r == FindByName(pages, name)
    {
      log := log + [DescribeLoadBalancers([name])];
      var found := DescribeAll(NamedFilter(name));
      if found.Err? {
        if ApiCode(found.error) == Some("LoadBalancerNotFound") {
          return Ok(None);
        }
        return Err(Described("error listing ELBs", found.error));
      }
      if |found.value| == 0 {
        return Ok(None);
      }
      if |found.value| != 1 {
        return Err(AmbiguousMatch("name", name));
      }
      r := Ok(Some(found.value[0]));
    }

    /** `findLoadBalancerByAlias`, as one logged request when the alias has a DNS name. */
    method FindLoadBalancerByAlias(alias: AliasTarget) returns (r: Result<Option<LbDescription>, Error>)
      modifies this
      ensures log == old(log) + (if TrimSuffix(alias.dnsName.GetOr(""), ".") == "" then [] else [DescribeLoadBalancers([])])
      ensures r == FindByAlias(pages, alias)
    {
      var dnsName := alias.dnsName.GetOr("");
      if TrimSuffix(dnsName, ".") == "" {
        return Err(AliasDnsNameMissing);
      }
      log := log + [DescribeLoadBalancers([])];
      var found := DescribeAll(AliasFilter(alias));
      if found.Err? {
        return Err(Described("error listing ELBs", found.error));
      }
      if |found.value| == 0 {
        return Ok(None);
      }
      if |found.value| != 1 {
        return Err(AmbiguousMatch("DNSName", dnsName));
      }
      r := Ok(Some(found.value[0]));
    }
  }

  /** The filter loop over one page. */
  method FilterPage(ds: seq<LbDescription>, keep: LbDescription -> bool) returns (kept: seq<LbDescription>)
    ensures kept == Filter(ds, keep)
  {
    kept := [];
    for i := 0 to |ds|
      invariant kept == Filter(ds[..i], keep)
    {
      assert ds[..i + 1][..i] == ds[..i];
      if keep(ds[i]) {
        kept := kept + [ds[i]];
      }
    }
    assert ds[..|ds|] == ds;
  }

  // ------------------------------------------------------------------ loops shared by the operations

  /** The IDs of a list of references, gathered one by one. */
  method IdsOf(refs: seq<ResourceRef>) returns (ids: seq<string>)
    ensures ids == Ids(refs)
  {
    ids := [];
    for i := 0 to |refs|
      invariant ids == Ids(refs[..i])
    {
      assert refs[..i + 1][..i] == refs[..i];
      ids := ids + [RefId(refs[i])];
    }
    assert refs[..|refs|] == refs;
  }

  /**
    A loop over a listener map in Go's unspecified iteration order, translating each entry;
    `order` is the iteration order, completed with the keys a failure left unvisited.
  */
  method TranslateListenerMap<T>(m: map<string, Listener>, bitSize: nat, translate: (Listener, Int32) -> T)
    returns (r: Result<seq<T>, Error>, ghost order: seq<string>)
    requires bitSize == 32 || bitSize == 64
    ensures multiset(order) == multiset(m.Keys)
    ensures r == TranslatePorts(order, m, bitSize, translate)
  {
    var remaining := m.Keys;
    var ls: seq<T> := [];
    order := [];
    while remaining != {}
      invariant remaining <= m.Keys
      invariant multiset(order) + multiset(remaining) == multiset(m.Keys)
      invariant TranslatePorts(order, m, bitSize, translate) == Ok(ls)
      decreases remaining
    {
      var k :| k in remaining;
      SetMultisetSplit(remaining, k);
      ghost var prev := order;
      remaining := remaining - {k};
      order := prev + [k];
      var port := ParseInt(k, bitSize);
      TranslatePortsSnoc(prev, k, m, bitSize, translate);
      if port.None? {
        ghost var rest := SortedKeys(remaining);
        TranslatePortsErrorStays(order, rest, m, bitSize, translate);
        order := order + rest;
        return Err(PortParse(k)), order;
      }
      ls := ls + [translate(m[k], TruncateToInt32(port.value))];
    }
    r := Ok(ls);
  }

  /** The tag loop of `Find`. */
  method ReadTags(tags: seq<Tag>) returns (m: map<string, string>)
    ensures m == TagsFrom(tags)
  {
    m := map[];
    for i := 0 to |tags|
      invariant m == TagsFrom(tags[..i])
    {
      assert tags[..i + 1][..i] == tags[..i];
      var key := tags[i].key.GetOr("");
      if HasPrefix(key, CloudFormationPrefix) {
        continue;
      }
      m := m[key := tags[i].value.GetOr("")];
    }
    assert tags[..|tags|] == tags;
  }

  /** The subnet and security group loops of `Find`. */
  method ReadRefs(ids: seq<string>) returns (refs: seq<ResourceRef>)
    ensures refs == RefsOf(ids)
  {
    refs := [];
    for i := 0 to |ids|
      invariant refs == RefsOf(ids[..i])
    {
      assert ids[..i + 1][..i] == ids[..i];
      refs := refs + [ResourceRef(None, Some(ids[i]))];
    }
    assert ids[..|ids|] == ids;
  }

  /** The listener loop of `Find`. */
  method ReadListeners(ls: seq<AwsListener>) returns (m: map<string, Listener>)
    ensures m == ListenersFrom(ls)
  {
    m := map[];
    for i := 0 to |ls|
      invariant m == ListenersFrom(ls[..i])
    {
      assert ls[..i + 1][..i] == ls[..i];
      m := m[FormatInt(ls[i].loadBalancerPort) := ListenerOf(ls[i])];
    }
    assert ls[..|ls|] == ls;
  }

  // ------------------------------------------------------------------ the update steps of RenderAWS

  /** The subnet part of an update. */
  method UpdateSubnets(api: ElbApi, name: string, expected: seq<ResourceRef>, actual: seq<ResourceRef>)
    returns (err: Option<Error>)
    modifies api
    ensures api.log == old(api.log) + SubnetRun(api.answer, name, expected, actual).sent
    ensures err == SubnetRun(api.answer, name, expected, actual).err
  {
    var expectedIds := IdsOf(expected);
    var actualIds := IdsOf(actual);
    var detach := UniqueNotIn(expectedIds, actualIds);
    if |detach| > 0 {
      err := api.Send(DetachFromSubnets(name, detach), Some("Error detaching Load Balancer from old subnets"));
      if err.Some? {
        return;
      }
    }
    var attach := UniqueNotIn(actualIds, expectedIds);
    err := None;
    if |attach| > 0 {
      err := api.Send(AttachToSubnets(name, attach), Some("Error attaching Load Balancer to new subnets"));
    }
  }

  /** The listener part of an update. */
  method UpdateListeners(api: ElbApi, name: string, m: map<string, Listener>)
    returns (err: Option<Error>, ghost order: seq<string>)
    modifies api
    ensures multiset(order) == multiset(m.Keys)
    ensures api.log == old(api.log) + ListenerRun(api.answer, api.pages, name, m, order).sent
    ensures err == ListenerRun(api.answer, api.pages, name, m, order).err
  {
    var lookup := api.FindLoadBalancerByName(name);
    if lookup.Err? {
      order := SortedKeys(m.Keys);
      return Some(Described("error getting load balancer by name", lookup.error)), order;
    }
    if lookup.value.Some? {
      var _ := api.Send(DeleteListeners(name, [443]), None);
    }
    var ls;
    ls, order := TranslateListenerMap(m, 32, MapToAws);
    if ls.Err? {
      return Some(ls.error), order;
    }
    err := api.Send(CreateListeners(name, ls.value), Some("error creating LoadBalancerListeners"));
  }

  /** The security group part of an update. */
  method UpdateSecurityGroups(api: ElbApi, name: string, groups: seq<ResourceRef>) returns (err: Option<Error>)
    modifies api
    ensures var run := Step(api.answer, ApplySecurityGroups(name, Ids(groups)), Some("Error updating security groups on Load Balancer"));
            api.log == old(api.log) + run.sent && err == run.err
  {
    var ids := IdsOf(groups);
    err := api.Send(ApplySecurityGroups(name, ids), Some("Error updating security groups on Load Balancer"));
  }

  /** The update of an existing ELB. */
  method UpdateElb(api: ElbApi, e: LoadBalancer, a: LoadBalancer, changes: Changes)
    returns (err: Option<Error>, ghost order: seq<string>)
    modifies api
    ensures multiset(order) == multiset(changes.listeners.GetOr(map[]).Keys)
    ensures api.log == old(api.log) + UpdateRun(api.answer, api.pages, e, a, changes, order).sent
    ensures err == UpdateRun(api.answer, api.pages, e, a, changes, order).err
  {
    var name := a.loadBalancerName.GetOr("");
    ghost var log0 := api.log;
    ghost var sub := if changes.subnets.Some? then SubnetRun(api.answer, name, e.subnets, a.subnets) else Done;
    order := SortedKeys(changes.listeners.GetOr(map[]).Keys);
    err := None;
    if changes.subnets.Some? {
      err := UpdateSubnets(api, name, e.subnets, a.subnets);
      if err.Some? {
        return;
      }
    }
    assert api.log == log0 + sub.sent;
    err, order := UpdateGroupsAndListeners(api, name, e, changes);
    ThenAppend(log0, sub, GroupsAndListenersRun(api.answer, api.pages, e, name, changes, order));
  }

  /** The security group and listener parts of an update. */
  method UpdateGroupsAndListeners(api: ElbApi, name: string, e: LoadBalancer, changes: Changes)
    returns (err: Option<Error>, ghost order: seq<string>)
    modifies api
    ensures multiset(order) == multiset(changes.listeners.GetOr(map[]).Keys)
    ensures api.log == old(api.log) + GroupsAndListenersRun(api.answer, api.pages, e, name, changes, order).sent
    ensures err == GroupsAndListenersRun(api.answer, api.pages, e, name, changes, order).err
  {
    ghost var log1 := api.log;
    ghost var sg := if changes.securityGroups.Some? then
                      Step(api.answer, ApplySecurityGroups(name, Ids(e.securityGroups)),
                           Some("Error updating security groups on Load Balancer"))
                    else Done;
    order := SortedKeys(changes.listeners.GetOr(map[]).Keys);
    err := None;
    if changes.securityGroups.Some? {
      err := UpdateSecurityGroups(api, name, e.securityGroups);
      if err.Some? {
        return;
      }
    }
    assert api.log == log1 + sg.sent;
    ghost var log2 := api.log;
    if changes.listeners.Some? {
      err, order := UpdateListeners(api, name, changes.listeners.value);
    }
    ghost var ls := if changes.listeners.Some? then ListenerRun(api.answer, api.pages, name, changes.listeners.value, order)
                    else Done;
    assert api.log == log2 + ls.sent && err == ls.err;
    ThenAppend(log1, sg, ls);
  }

  /** The tail every creation or update ends with. */
  method ApplyTail(api: ElbApi, name: string, e: LoadBalancer, changes: Changes) returns (err: Option<Error>)
    modifies api
    ensures api.log == old(api.log) + TailRun(api.answer, name, e, changes).sent
    ensures err == TailRun(api.answer, name, e, changes).err
  {
    ghost var log0 := api.log;
    ghost var hc := if changes.healthCheck.Some? && e.healthCheck.Some? then
                      Step(api.answer, ConfigureHealthCheck(name, e.healthCheck.value), Some("error configuring health checks on ELB"))
                    else Done;
    ghost var attrs := Step(api.answer, ModifyAttributes(name), None);
    err := api.Send(AddTags(name, e.tags), None);
    if err.Some? {
      return;
    }
    err := api.Send(RemoveTags(name, e.tags), None);
    if err.Some? {
      return;
    }
    ghost var log2 := api.log;
    if changes.healthCheck.Some? && e.healthCheck.Some? {
      err := api.Send(ConfigureHealthCheck(name, e.healthCheck.value), Some("error configuring health checks on ELB"));
      if err.Some? {
        return;
      }
    }
    err := api.Send(ModifyAttributes(name), None);
    assert api.log == log2 + hc.sent + attrs.sent;
    Hcl.AppendAssoc(log2, hc.sent, attrs.sent);
  }

  // ------------------------------------------------------------------ Terraform

  /** `terraformLoadBalancer`. */
  datatype TerraformLoadBalancer = TerraformLoadBalancer(
    loadBalancerName: Option<string>,
    listeners: seq<TerraformListener>,
    securityGroups: seq<Hcl.Literal>,
    subnets: seq<Hcl.Literal>,
    internal: Option<bool>,
    healthCheck: Option<HealthCheck>,
    accessLog: Option<AccessLog>,
    connectionDraining: Option<bool>,
    connectionDrainingTimeout: Option<Int32>,
    crossZoneLoadBalancing: Option<bool>,
    idleTimeout: Option<Int32>,
    tags: map<string, string>)

  /** A resource handed to the Terraform target: its type, its name and its body. */
  datatype TerraformResource = TerraformResource(kind: string, name: string, body: TerraformLoadBalancer)

  /** The ordering key of `SortLiterals`. */
  function LiteralText(l: Hcl.Literal): string
  {
    l.text
  }

  /** The references of a list of subnets or security groups, in order. */
  function Links(refs: seq<ResourceRef>, link: ResourceRef -> Hcl.Literal): (r: seq<Hcl.Literal>)
    ensures |r| == |refs| && forall i :: 0 <= i < |refs| ==> r[i] == link(refs[i])
  {
    if refs == [] then [] else Links(refs[..|refs| - 1], link) + [link(refs[|refs| - 1])]
  }

  /** The body `RenderTerraform` writes around the translated listeners `ls`. */
  function TerraformBody(e: LoadBalancer, buildTags: map<string, string>,
                         subnetLink: ResourceRef -> Hcl.Literal, sgLink: ResourceRef -> Hcl.Literal,
                         ls: seq<TerraformListener>): TerraformLoadBalancer
  {
    TerraformLoadBalancer(
      loadBalancerName := e.loadBalancerName,
      listeners := ls,
      securityGroups := StableSortBy(Links(e.securityGroups, sgLink), LiteralText),
      subnets := StableSortBy(Links(e.subnets, subnetLink), LiteralText),
      internal := if e.scheme.GetOr("") == "internal" then Some(true) else None,
      healthCheck := e.healthCheck,
      accessLog := if e.accessLog.Some? && e.accessLog.value.enabled.GetOr(false) then e.accessLog else None,
      connectionDraining := if e.connectionDraining.Some? then e.connectionDraining.value.enabled else None,
      connectionDrainingTimeout := if e.connectionDraining.Some? then e.connectionDraining.value.timeout else None,
      crossZoneLoadBalancing := if e.crossZoneLoadBalancing.Some? then e.crossZoneLoadBalancing.value.enabled else None,
      idleTimeout := if e.connectionSettings.Some? then e.connectionSettings.value.idleTimeout else None,
      tags := buildTags + e.tags)
  }

  /**
    `RenderTerraform`, given the tags the cloud builds for the ELB task's Name, the references
    the subnet and security group tasks give, and the listener map's iteration order.
  */
  function TerraformRendering(e: LoadBalancer, buildTags: map<string, string>,
                              subnetLink: ResourceRef -> Hcl.Literal, sgLink: ResourceRef -> Hcl.Literal,
                              order: seq<string>): Result<Option<TerraformResource>, Error>
  {
    if e.shared.GetOr(false) then Ok(None)
    else if e.loadBalancerName.None? then Err(RequiredField("LoadBalancerName"))
    else
      match TranslatePorts(order, e.listeners, 64, TerraformListenerOf)
      case Err(err) => Err(err)
      case Ok(ls) =>
        if e.name.None? then Err(NilDereference("Name"))
        else Ok(Some(TerraformResource("aws_elb", e.name.value, TerraformBody(e, buildTags, subnetLink, sgLink, ls))))
  }

  /**
    The body around any listeners: the load balancer's name; subnet and security group
    references sorted and complete; `internal` set exactly for the internal scheme; access
    logs only when enabled; the ELB task's tags written over the built ones.
  */
  lemma TerraformBodySpec(e: LoadBalancer, buildTags: map<string, string>,
                          subnetLink: ResourceRef -> Hcl.Literal, sgLink: ResourceRef -> Hcl.Literal,
                          ls: seq<TerraformListener>)
    ensures var tf := TerraformBody(e, buildTags, subnetLink, sgLink, ls);
            tf.loadBalancerName == e.loadBalancerName && tf.listeners == ls
            && SortedBy(tf.subnets, LiteralText) && multiset(tf.subnets) == multiset(Links(e.subnets, subnetLink))
            && SortedBy(tf.securityGroups, LiteralText)
            && multiset(tf.securityGroups) == multiset(Links(e.securityGroups, sgLink))
            && (tf.internal == Some(true) <==> e.scheme == Some("internal"))
            && (tf.internal.None? <==> e.scheme != Some("internal"))
            && (tf.accessLog.Some? <==> e.accessLog.Some? && e.accessLog.value.enabled == Some(true))
            && (forall k :: k in tf.tags <==> k in buildTags || k in e.tags)
            && (forall k :: k in e.tags ==> tf.tags[k] == e.tags[k])
            && (forall k :: k in buildTags && k !in e.tags ==> tf.tags[k] == buildTags[k])
  {
    StableSortSorted(Links(e.subnets, subnetLink), LiteralText);
    StableSortSorted(Links(e.securityGroups, sgLink), LiteralText);
  }

  /**
    The outcome of `RenderTerraform`: nothing for a shared load balancer; a required-field
    error without a load balancer name; otherwise an `aws_elb` named after the ELB task whose
    listeners are those of the map, one per key in iteration order, each under its parsed port.
  */
  lemma TerraformRenderingSpec(e: LoadBalancer, buildTags: map<string, string>,
                               subnetLink: ResourceRef -> Hcl.Literal, sgLink: ResourceRef -> Hcl.Literal,
                               order: seq<string>)
    requires forall k :: k in order ==> k in e.listeners
    ensures var r := TerraformRendering(e, buildTags, subnetLink, sgLink, order);
            e.shared.GetOr(false) ==> r == Ok(None)
    ensures var r := TerraformRendering(e, buildTags, subnetLink, sgLink, order);
            !e.shared.GetOr(false) && e.loadBalancerName.None? ==> r == Err(RequiredField("LoadBalancerName"))
    ensures var r := TerraformRendering(e, buildTags, subnetLink, sgLink, order);
            r.Ok? && r.value.Some? ==>
              var res := r.value.value;
              res.kind == "aws_elb" && Some(res.name) == e.name
              && res.body == TerraformBody(e, buildTags, subnetLink, sgLink, res.body.listeners)
              && |res.body.listeners| == |order|
              && forall i :: 0 <= i < |order| ==>
                   ParseInt(order[i], 64).Some?
                   && res.body.listeners[i]
                      == TerraformListenerOf(e.listeners[order[i]], TruncateToInt32(ParseInt(order[i], 64).value))
  {
    TranslatePortsSpec(order, e.listeners, 64, TerraformListenerOf);
  }

  /** The tag loop of `RenderTerraform`: the ELB task's tags written over the built ones. */
  method MergeTags(base: map<string, string>, overrides: map<string, string>) returns (tags: map<string, string>)
    ensures tags == base + overrides
  {
    tags := base;
    var remaining := overrides.Keys;
    while remaining != {}
      invariant remaining <= overrides.Keys
      invariant tags == base + map k | k in overrides.Keys - remaining :: overrides[k]
      decreases remaining
    {
      var k :| k in remaining;
      remaining := remaining - {k};
      tags := tags[k := overrides[k]];
    }
    assert overrides == map k | k in overrides.Keys - remaining :: overrides[k];
  }

  /** The subnet and security group reference loops of `RenderTerraform`. */
  method LinksOf(refs: seq<ResourceRef>, link: ResourceRef -> Hcl.Literal) returns (ls: seq<Hcl.Literal>)
    ensures ls == Links(refs, link)
  {
    ls := [];
    for i := 0 to |refs|
      invariant ls == Links(refs[..i], link)
    {
      assert refs[..i + 1][..i] == refs[..i];
      ls := ls + [link(refs[i])];
    }
    assert refs[..|refs|] == refs;
  }

  // ------------------------------------------------------------------ the ELB task

  /** The `ClassicLoadBalancer` task. */
  class ClassicLoadBalancer {
    var name: Option<string>
    var lifecycle: string
    var loadBalancerName: Option<string>
    var dnsName: Option<string>
    var hostedZoneId: Option<string>
    var subnets: seq<ResourceRef>
    var securityGroups: seq<ResourceRef>
    var listeners: map<string, Listener>
    var scheme: Option<string>
    var healthCheck: Option<HealthCheck>
    var accessLog: Option<AccessLog>
    var connectionDraining: Option<ConnectionDraining>
    var connectionSettings: Option<ConnectionSettings>
    var crossZoneLoadBalancing: Option<CrossZoneLoadBalancing>
    var sslCertificateId: string
    var tags: map<string, string>
    var shared: Option<bool>
    var wellKnownServices: seq<string>

    /** The ELB task's fields as one value. */
    function Snapshot(): LoadBalancer
      reads this
    {
      LoadBalancer(name, lifecycle, loadBalancerName, dnsName, hostedZoneId, subnets, securityGroups, listeners,
                   scheme, healthCheck, accessLog, connectionDraining, connectionSettings, crossZoneLoadBalancing,
                   sslCertificateId, tags, shared, wellKnownServices)
    }

    constructor(v: LoadBalancer)
      ensures Snapshot() == v
    {
      name := v.name;
      lifecycle := v.lifecycle;
      loadBalancerName := v.loadBalancerName;
      dnsName := v.dnsName;
      hostedZoneId := v.hostedZoneId;
      subnets := v.subnets;
      securityGroups := v.securityGroups;
      listeners := v.listeners;
      scheme := v.scheme;
      healthCheck := v.healthCheck;
      accessLog := v.accessLog;
      connectionDraining := v.connectionDraining;
      connectionSettings := v.connectionSettings;
      crossZoneLoadBalancing := v.crossZoneLoadBalancing;
      sslCertificateId := v.sslCertificateId;
      tags := v.tags;
      shared := v.shared;
      wellKnownServices := v.wellKnownServices;
    }

    /** `Normalize`: sorts subnets and security groups by ID, stably, in place. */
    method Normalize()
      modifies this
      ensures Snapshot() == Normalized(old(Snapshot()))
    {
      var sortedSubnets := SortStableBy(subnets, RefId);
      var sortedGroups := SortStableBy(securityGroups, RefId);
      subnets := sortedSubnets;
      securityGroups := sortedGroups;
      assert Snapshot() == old(Snapshot()).(subnets := sortedSubnets, securityGroups := sortedGroups);
    }

    /**
      `Find`, given the answers of the cloud calls it makes: the actual state it returns is
      the discovered one, and the desired task is backfilled from it.
    */
    method Find(byNameTag: Result<Option<LbDescription>, Error>, tagMap: Result<map<string, seq<Tag>>, Error>,
                healthCheck: Result<Option<HealthCheck>, Error>, attrs: Result<Option<LbAttributes>, Error>)
      returns (r: Result<Option<ClassicLoadBalancer>, Error>)
      modifies this
      ensures var outcome := FindOutcome(old(Snapshot()), byNameTag, tagMap, healthCheck, attrs);
              r.Ok? == outcome.Ok? && (r.Err? ==> r.error == outcome.error)
              && (r.Ok? ==> r.value.None? == outcome.value.None?)
      ensures r.Ok? && r.value.Some? ==>
                fresh(r.value.value)
                && Some(r.value.value.Snapshot()) == FindOutcome(old(Snapshot()), byNameTag, tagMap, healthCheck, attrs).value
                && Snapshot() == DesiredAfterFind(old(Snapshot()), byNameTag.value.value, r.value.value.Snapshot())
      ensures !(r.Ok? && r.value.Some?) ==> Snapshot() == old(Snapshot())
    {
      var e := Snapshot();
      if byNameTag.Err? {
        return Err(byNameTag.error);
      }
      if byNameTag.value.None? {
        return Ok(None);
      }
      var lb := byNameTag.value.value;
      if lb.loadBalancerName.None? {
        return Err(NilDereference("LoadBalancerName"));
      }
      if tagMap.Err? {
        return Err(tagMap.error);
      }
      var lbName := lb.loadBalancerName.value;
      var foundTags := ReadTags(if lbName in tagMap.value then tagMap.value[lbName] else []);
      if healthCheck.Err? {
        return Err(healthCheck.error);
      }
      if attrs.Err? {
        return Err(attrs.error);
      }
      assert foundTags == FoundTags(lb, tagMap.value);
      var actual := Adopt(lb, foundTags, healthCheck.value, attrs.value);
      r := Ok(Some(actual));
    }

    /**
      The successful end of `Find`: the discovered actual task, and the desired task
      backfilled from it.
    */
    method Adopt(lb: LbDescription, foundTags: map<string, string>, hc: Option<HealthCheck>, attrs: Option<LbAttributes>)
      returns (actual: ClassicLoadBalancer)
      modifies this
      ensures fresh(actual)
      ensures actual.Snapshot() == Discovered(old(Snapshot()), lb, foundTags, hc, attrs)
      ensures Snapshot() == DesiredAfterFind(old(Snapshot()), lb, actual.Snapshot())
    {
      ghost var e := Snapshot();
      actual := Discover(lb, foundTags, hc, attrs);
      ghost var assembled := actual.Snapshot();
      DesiredAfterFindSteps(e, lb, assembled);
      Reconcile(actual);
    }

    /**
      What `Find` does once the actual task is assembled: backfill the desired task's
      identity from it, then normalize it (sorting a subnet slice the two tasks share).
    */
    method Reconcile(actual: ClassicLoadBalancer)
      requires actual != this
      modifies this, actual
      ensures actual.Snapshot() == Normalized(old(actual.Snapshot()))
      ensures var b := Backfilled(old(Snapshot()), old(actual.Snapshot()));
              Snapshot() == if old(actual.subnets) == old(subnets) then b.(subnets := actual.subnets) else b
    {
      Backfill(actual);
      NormalizeShared(actual);
    }

    /**
      `Normalize` on the actual task; when it took over the desired task's subnet slice,
      the desired task sees that slice sorted as well.
    */
    method NormalizeShared(actual: ClassicLoadBalancer)
      requires actual != this
      modifies this, actual
      ensures actual.Snapshot() == Normalized(old(actual.Snapshot()))
      ensures Snapshot() == if old(actual.subnets) == old(subnets) then old(Snapshot()).(subnets := actual.subnets)
                            else old(Snapshot())
    {
      var aliased := actual.subnets == subnets;
      actual.Normalize();
      if aliased {
        subnets := actual.subnets;
      }
    }

    /** The actual task `Find` assembles from the description and the answers it read. */
    method Discover(lb: LbDescription, foundTags: map<string, string>, hc: Option<HealthCheck>, attrs: Option<LbAttributes>)
      returns (actual: ClassicLoadBalancer)
      ensures fresh(actual)
      ensures actual.Snapshot() == Assembled(Snapshot(), lb, foundTags, hc, attrs)
      ensures actual.subnets == subnets <==> SameSubnets(RefsOf(lb.subnets), subnets)
    {
      var subnetRefs := ReadRefs(lb.subnets);
      var sgRefs := ReadRefs(lb.securityGroups);
      var listenerMap := ReadListeners(lb.listeners);
      // The actual task takes over the desired subnet slice when it holds the same IDs.
      var aliased := SameSubnets(subnetRefs, subnets);
      actual := new ClassicLoadBalancer(LoadBalancer(
        name := name,
        lifecycle := lifecycle,
        loadBalancerName := lb.loadBalancerName,
        dnsName := lb.dnsName,
        hostedZoneId := lb.canonicalHostedZoneNameId,
        subnets := if aliased then subnets else subnetRefs,
        securityGroups := sgRefs,
        listeners := listenerMap,
        scheme := lb.scheme,
        healthCheck := hc,
        accessLog := if attrs.Some? then Some(AccessLogOf(attrs.value)) else None,
        connectionDraining := if attrs.Some? then Some(ConnectionDrainingOf(attrs.value)) else None,
        connectionSettings := if attrs.Some? then Some(ConnectionSettings(attrs.value.idleTimeout)) else None,
        crossZoneLoadBalancing :=
          if attrs.Some? then Some(CrossZoneLoadBalancing(Some(attrs.value.crossZoneEnabled))) else None,
        sslCertificateId := "",
        tags := foundTags,
        shared := None,
        wellKnownServices := wellKnownServices));
    }

    /** The backfill of the desired task's identity from the actual one. */
    method Backfill(actual: ClassicLoadBalancer)
      requires actual != this
      modifies this
      ensures Snapshot() == Backfilled(old(Snapshot()), actual.Snapshot())
      ensures subnets == old(subnets)
    {
      if dnsName.None? {
        dnsName := actual.dnsName;
      }
      if hostedZoneId.None? {
        hostedZoneId := actual.hostedZoneId;
      }
      if loadBalancerName.None? {
        loadBalancerName := actual.loadBalancerName;
      }
      if loadBalancerName.GetOr("") != actual.loadBalancerName.GetOr("") {
        loadBalancerName := actual.loadBalancerName;
      }
      assert Snapshot() == old(Snapshot()).(dnsName := dnsName, hostedZoneId := hostedZoneId, loadBalancerName := loadBalancerName);
    }

    /**
      `RenderAWS`, given the API and the actual state and change set the kops executor computed:
      the requests sent and the error returned are the run `RenderAwsRun` describes, and the
      task is left as `RenderedState` describes.
    */
    method RenderAws(api: ElbApi, a: Option<LoadBalancer>, changes: Changes)
      returns (err: Option<Error>, ghost order: seq<string>)
      modifies this, api
      ensures multiset(order) == multiset(IteratedListeners(old(Snapshot()), a, changes).Keys)
      ensures api.log == old(api.log) + RenderAwsRun(api.answer, api.pages, old(Snapshot()), a, changes, order).sent
      ensures err == RenderAwsRun(api.answer, api.pages, old(Snapshot()), a, changes, order).err
      ensures Snapshot() == RenderedState(api.answer, api.pages, api.createdDnsName, old(Snapshot()), a, order)
    {
      var e := Snapshot();
      order := SortedKeys(IteratedListeners(e, a, changes).Keys);
      if shared.GetOr(false) {
        return None, order;
      }
      ghost var log0 := api.log;
      var name: string;
      if a.None? {
        if loadBalancerName.None? {
          return Some(RequiredField("LoadBalancerName")), order;
        }
        name := loadBalancerName.value;
        err, order := CreateElb(api, name);
        if err.Some? {
          return;
        }
      } else {
        name := a.value.loadBalancerName.GetOr("");
        err, order := UpdateElb(api, e, a.value, changes);
        if err.Some? {
          return;
        }
      }
      ghost var log1 := api.log;
      err := ApplyTail(api, name, e, changes);
      Hcl.AppendAssoc(log0, log1[|log0|..], TailRun(api.answer, name, e, changes).sent);
    }

    /** The first creation of an ELB named `name`. */
    method CreateElb(api: ElbApi, name: string) returns (err: Option<Error>, ghost order: seq<string>)
      modifies this, api
      ensures multiset(order) == multiset(old(listeners).Keys)
      ensures api.log == old(api.log) + CreateRun(api.answer, api.pages, old(Snapshot()), name, order).sent
      ensures err == CreateRun(api.answer, api.pages, old(Snapshot()), name, order).err
      ensures Snapshot() == CreatedState(api.answer, api.pages, api.createdDnsName, old(Snapshot()), name, order)
    {
      ghost var e := Snapshot();
      ghost var log0 := api.log;
      var subnetIds := IdsOf(subnets);
      var sgIds := IdsOf(securityGroups);
      var ls;
      ls, order := TranslateListenerMap(listeners, 32, MapToAws);
      if ls.Err? {
        return Some(ls.error), order;
      }
      var req := CreateLoadBalancer(name, scheme, subnetIds, sgIds, ls.value);
      assert req == CreateRequest(e, name, ls.value);
      err := api.Send(req, Some("error creating ELB"));
      if err.Some? {
        return;
      }
      ghost var log1 := api.log;
      err := RecordCreated(api, name);
      Hcl.AppendAssoc(log0, log1[|log0|..], [DescribeLoadBalancers([name])]);
    }

    /** After a successful creation: the DNS name the call returned, then the hosted zone read back by name. */
    method RecordCreated(api: ElbApi, name: string) returns (err: Option<Error>)
      modifies this, api
      ensures api.log == old(api.log) + [DescribeLoadBalancers([name])]
      ensures err == match FindByName(api.pages, name)
                     case Err(x) => Some(x)
                     case Ok(None) => Some(NotFoundAfterCreate(name))
                     case Ok(Some(_)) => None
      ensures var created := old(Snapshot()).(dnsName := api.createdDnsName);
              Snapshot() == match FindByName(api.pages, name)
                            case Ok(Some(lb)) => created.(hostedZoneId := lb.canonicalHostedZoneNameId)
                            case _ => created
    {
      dnsName := api.createdDnsName;
      var found := api.FindLoadBalancerByName(name);
      match found
      case Err(e) =>
        err := Some(e);
      case Ok(None) =>
        err := Some(NotFoundAfterCreate(name));
      case Ok(Some(lb)) =>
        err := None;
        hostedZoneId := lb.canonicalHostedZoneNameId;
    }

    /**
      `RenderTerraform`, given the tags the cloud builds for the ELB task's Name and the
      references of the subnet and security group tasks; it changes nothing.
    */
    method RenderTerraform(buildTags: map<string, string>, subnetLink: ResourceRef -> Hcl.Literal,
                           sgLink: ResourceRef -> Hcl.Literal)
      returns (r: Result<Option<TerraformResource>, Error>, ghost order: seq<string>)
      ensures multiset(order) == multiset(listeners.Keys)
      ensures r == TerraformRendering(Snapshot(), buildTags, subnetLink, sgLink, order)
    {
      var e := Snapshot();
      order := SortedKeys(listeners.Keys);
      if shared.GetOr(false) {
        return Ok(None), order;
      }
      if loadBalancerName.None? {
        return Err(RequiredField("LoadBalancerName")), order;
      }
      var subnetLinks := LinksOf(e.subnets, subnetLink);
      subnetLinks := SortStableBy(subnetLinks, LiteralText);
      var sgLinks := LinksOf(e.securityGroups, sgLink);
      sgLinks := SortStableBy(sgLinks, LiteralText);
      var ls;
      ls, order := TranslateListenerMap(e.listeners, 64, TerraformListenerOf);
      if ls.Err? {
        return Err(ls.error), order;
      }
      var merged := MergeTags(buildTags, e.tags);
      if e.name.None? {
        return Err(NilDereference("Name")), order;
      }
      var tf := TerraformBody(e, buildTags, subnetLink, sgLink, ls.value);
      tf := tf.(subnets := subnetLinks, securityGroups := sgLinks, tags := merged);
      r := Ok(Some(TerraformResource("aws_elb", e.name.value, tf)));
    }
  }
}
