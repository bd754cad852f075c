/**
 * The effect of `NotificationProvider` (src/context/NotificationContext.tsx):
 * for a user with a company it creates a STOMP client that reconnects every
 * 5000 ms, subscribes to the company topic whenever it connects, and pushes
 * every decoded message into the notification store before showing a toast.
 * The transport is abstracted to the events the effect reacts to: a render
 * with the current user, a successful connect, a received message and the
 * cleanup React runs before the next effect or on unmount.
 */
module NotificationContext {
  import opened Wrappers
  import opened Seqs
  import opened Domain
  import opened NotificationStore

  /** `reconnectDelay` passed to the client. */
  const ReconnectDelayMs: nat := 5000

  const TopicPrefix := "/topic/company/"

  /** The topic a company's notifications are published on. */
  function TopicFor(companyId: string): (topic: string)
    ensures StartsWith(topic, TopicPrefix) && topic[|TopicPrefix|..] == companyId
    ensures |topic| == |TopicPrefix| + |companyId|
  {
    TopicPrefix + companyId
  }

  /** The company a topic belongs to, if it is a company topic at all. */
  function CompanyOfTopic(topic: string): (c: Option<string>)
  {
    if StartsWith(topic, TopicPrefix) then Some(topic[|TopicPrefix|..]) else None
  }

  /** The topic determines the company: decoding a company's topic gives that company back. */
  lemma TopicRoundTrip(companyId: string)
    ensures CompanyOfTopic(TopicFor(companyId)) == Some(companyId)
  {
  }

  /** Two companies never share a topic, so a client only hears its own company. */
  lemma TopicsSeparateCompanies(a: string, b: string)
    requires TopicFor(a) == TopicFor(b)
    ensures a == b
  {
    TopicRoundTrip(a);
    TopicRoundTrip(b);
  }

  /** The effect's gate: it only connects for a user whose `companyId` is truthy. */
  predicate Connects(user: Option<User>)
  {
    CompanyOf(user).Some?
  }

  /** The effect's dependency list `[user?.companyId]`. */
  function Dependency(user: Option<User>): (d: Option<string>)
    ensures d.Some? <==> user.Some?
    ensures d.Some? ==> d.value == user.value.companyId
    ensures CompanyOf(user).Some? ==> d == CompanyOf(user)
  {
    if user.Some? then Some(user.value.companyId) else None
  }

  /** What the message callback does, in order. */
  datatype Effect = StoreNotification(n: NotificationMessage) | ShowToast(title: string, description: string)

  /** The observable state of one `@stomp/stompjs` client the effect creates. */
  class StompClient {
    const reconnectDelay: nat
    /** The topic its `onConnect` callback subscribes to. */
    const topic: string
    var active: bool
    /** The topics passed to `subscribe`, one per successful connect. */
    var subscriptions: seq<string>

    constructor (topic: string, reconnectDelay: nat)
      ensures this.topic == topic && this.reconnectDelay == reconnectDelay
      ensures !active && subscriptions == []
    {
      this.topic := topic;
      this.reconnectDelay := reconnectDelay;
      active := false;
      subscriptions := [];
    }

    /** `stompClient.activate()`. */
    method Activate()
      modifies this`active
      ensures active
    {
      active := true;
    }

    /** `stompClient.deactivate()`. */
    method Deactivate()
      modifies this`active
      ensures !active
    {
      active := false;
    }

    /** The `onConnect` callback: every successful connect subscribes once more to the topic. */
    method OnConnect()
      modifies this`subscriptions
      ensures subscriptions == old(subscriptions) + [topic]
    {
      subscriptions := subscriptions + [topic];
    }
  }

  class NotificationProvider {
    /** The global store the message callback writes to. */
    const store: NotificationStore
    /** `stompClientRef.current`. */
    var clientRef: StompClient?
    /** The client the cleanup registered by the last effect run deactivates. */
    var cleanup: StompClient?
    /** The dependency value of the last effect run; `None` before the first render. */
    var dependency: Option<Option<string>>
    /** Every client an effect run has created. */
    ghost var clients: set<StompClient>

    /** Only the client of the pending cleanup can still be active. */
    ghost predicate Valid()
      reads this, clients
    {
      && (cleanup != null ==> cleanup in clients)
      && (forall c :: c in clients && c != cleanup ==> !c.active)
    }

    constructor (store: NotificationStore)
      ensures this.store == store && Valid()
      ensures clientRef == null && cleanup == null && dependency == None && clients == {}
    {
      this.store := store;
      clientRef := null;
      cleanup := null;
      dependency := None;
      clients := {};
    }

    /** At any time at most one of the created clients is active. */
    lemma AtMostOneActive()
      requires Valid()
      ensures forall a, b :: a in clients && b in clients && a.active && b.active ==> a == b
    {
    }

    /**
     * A render with the current user. React re-runs the effect only when
     * `user?.companyId` differs from the last run; before re-running it calls
     * the previous run's cleanup, which deactivates the client that run made.
     */
    method Render(user: Option<User>) returns (created: StompClient?)
      requires Valid()
      modifies this, clients
      ensures Valid()
      ensures dependency == Some(Dependency(user))
      ensures old(dependency) == Some(Dependency(user)) ==>
        created == null && cleanup == old(cleanup) && clientRef == old(clientRef) && clients == old(clients)
        && forall c :: c in clients ==> c.active == old(c.active) && c.subscriptions == old(c.subscriptions)
      ensures old(dependency) != Some(Dependency(user)) ==>
        && (old(cleanup) != null ==> !old(cleanup).active)
        && (created != null <==> Connects(user))
        && cleanup == created
        && (created == null ==> clientRef == old(clientRef) && clients == old(clients))
        && (created != null ==>
             && fresh(created) && created.active && created.subscriptions == []
             && created.topic == TopicFor(user.value.companyId)
             && created.reconnectDelay == ReconnectDelayMs
             && clientRef == created && clients == old(clients) + {created})
    {
      created := null;
      var next := Dependency(user);
      if dependency == Some(next) {
        return;
      }
      if cleanup != null {
        cleanup.Deactivate();
      }
      cleanup := null;
      dependency := Some(next);
      if !Connects(user) {
        return;
      }
      var client := new StompClient(TopicFor(user.value.companyId), ReconnectDelayMs);
      client.Activate();
      clientRef := client;
      cleanup := client;
      clients := clients + {client};
      created := client;
    }

    /** Unmounting the provider runs the pending cleanup. */
    method Unmount()
      requires Valid()
      modifies this, clients
      ensures Valid() && cleanup == null && clients == old(clients)
      ensures old(cleanup) != null ==> !old(cleanup).active
      ensures forall c :: c in clients ==> !c.active
    {
      if cleanup != null {
        cleanup.Deactivate();
      }
      cleanup := null;
    }

    /**
     * The subscription callback for one frame. `parsed` is what `JSON.parse`
     * made of the body, `None` when it threw: then the callback stops before
     * touching the store. The body is cast, not validated.
     */
    method HandleMessage(parsed: Option<NotificationMessage>) returns (effects: seq<Effect>)
      modifies store
      ensures parsed.None? ==> effects == [] && store.notifications == old(store.notifications)
      ensures parsed.Some? ==>
        && store.notifications == Added(old(store.notifications), parsed.value)
        && effects == [StoreNotification(parsed.value), ShowToast(parsed.value.title, parsed.value.message)]
    {
      if parsed.None? {
        return [];
      }
      var n := parsed.value;
      store.AddNotification(n);
      effects := [StoreNotification(n), ShowToast(n.title, n.message)];
    }
  }
}
