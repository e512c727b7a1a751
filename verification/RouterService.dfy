/** The router process (backend/app/router/main.py): one held configuration, replaced by accepted
    pushes; and the control plane's gateway to it (backend/app/control_plane/router_gateway.py). */
module RouterService {
  import opened Prelude
  import opened Models
  import opened Weights
  import opened Routing

  class RouterConfigStore {
    var config: Config

    constructor (initial: Config)
      ensures config == initial
    {
      config := initial;
    }

    method Get() returns (current: Config)
      ensures current == config
    {
      current := config;
    }

    method Set(incoming: Config)
      modifies this
      ensures config == incoming
    {
      config := incoming;
    }
  }

  class Router {
    const settings: Settings
    const store: RouterConfigStore

    /** `create_app` and its lifespan: the bootstrap split, replaced by the control plane's answer
        when the startup sync got one. The answer carries no revision. */
    constructor (settings: Settings, synced: Option<(DeploymentId, seq<Target>)>)
      ensures this.settings == settings && fresh(store)
      ensures store.config == StartupConfig(settings, synced)
    {
      this.settings := settings;
      store := new RouterConfigStore(Bootstrap(settings));
      new;
      if synced.Some? && RouterAccepts(synced.value.1) {
        store.Set(Config(settings.modelName, synced.value.1, Some(synced.value.0), 0));
      }
    }

    method PutConfig(incoming: Config) returns (response: Response)
      modifies store
      ensures response == Answer(settings, old(store.config), incoming)
      ensures store.config == AfterPut(settings, old(store.config), incoming)
    {
      if !RouterAccepts(incoming.targets) {
        return Rejected;
      }
      if exists i | 0 <= i < |incoming.targets| :: incoming.targets[i].version !in settings.hosts {
        return Rejected;
      }
      var current := store.Get();
      if incoming.modelName == current.modelName && incoming.revision <= current.revision {
        return Stale;
      }
      store.Set(incoming);
      response := Applied;
    }
  }

  function StartupConfig(settings: Settings, synced: Option<(DeploymentId, seq<Target>)>): Config {
    if synced.Some? && RouterAccepts(synced.value.1)
    then Config(settings.modelName, synced.value.1, Some(synced.value.0), 0)
    else Bootstrap(settings)
  }

  /** What the control plane learns from a push: delivered, StaleRevisionError, RouterUpdateError. */
  datatype PushOutcome = Delivered | StaleRevision | UpdateFailed

  /** A request to the router gets through and is answered, or is lost, or is carried out and its answer
      is lost. The control plane cannot tell the last two apart. */
  datatype Link = Up | RequestLost | ResponseLost

  function OutcomeOf(link: Link, response: Response): PushOutcome {
    if link != Up then UpdateFailed
    else match response
      case Applied => Delivered
      case Stale => StaleRevision
      case Rejected => UpdateFailed
  }

  /** What the router holds after a PUT. */
  function Received(link: Link, settings: Settings, current: Config, push: Config): Config {
    if link == RequestLost then current else AfterPut(settings, current, push)
  }

  /** The network between control plane and router; whether it works is up to the environment. */
  class RouterGateway {
    const router: Router
    var link: Link

    constructor (router: Router)
      ensures this.router == router && link == Up
    {
      this.router := router;
      link := Up;
    }

    /** Time passes between two requests: other pushes may land, the link may come or go. Callers
        learn nothing about what happened. */
    method Elapse()
      modifies this`link, router.store
    {
    }

    method PushTrafficAllocation(push: Config) returns (outcome: PushOutcome)
      modifies router.store
      ensures outcome == OutcomeOf(link, Answer(router.settings, old(router.store.config), push))
      ensures router.store.config == Received(link, router.settings, old(router.store.config), push)
    {
      if link == RequestLost {
        return UpdateFailed;
      }
      var response := router.PutConfig(push);
      if link == ResponseLost {
        return UpdateFailed;
      }
      outcome := match response
        case Applied => Delivered
        case Stale => StaleRevision
        case Rejected => UpdateFailed;
    }

    method GetObservedConfig() returns (observed: Option<Config>)
      ensures observed == if link == Up then Some(router.store.config) else None
    {
      if link == Up {
        var current := router.store.Get();
        observed := Some(current);
      } else {
        observed := None;
      }
    }
  }
}
