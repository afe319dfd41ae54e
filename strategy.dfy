/** `strategy.impl.StrategyMeanSupplAdd` of the Android client: the strategy
    of scope "xtra" that forwards a requested extra mean to the fragment
    listing the means, created lazily once and registered once. */
module ClientStrategy {
  import opened ClientModel

  const ScopeName: string := "xtra"

  /** The receiving fragment (`fragments.MoyensInitFragment` is not part of
      this model): it records the means it was asked for, in order. */
  class MoyensInitFragment {
    var demanded: seq<ClientMean>

    constructor ()
      ensures demanded == []
    {
      demanded := [];
    }

    method DemandMeanStrategy(m: ClientMean)
      modifies this
      ensures demanded == old(demanded) + [m]
    {
      demanded := demanded + [m];
    }
  }

  /** The field `map` of the source holds the fragment. */
  class StrategyMeanSupplAdd {
    var fragment: MoyensInitFragment?

    constructor ()
      ensures fragment == null
    {
      fragment := null;
    }

    /** getScopeName: the fixed scope of this strategy. */
    function GetScopeName(): (name: string)
      ensures name == ScopeName
    {
      ScopeName
    }

    /** setFragment: the new forwarding target replaces the old one. */
    method SetFragment(fragment: MoyensInitFragment?)
      modifies this
      ensures this.fragment == fragment
    {
      this.fragment := fragment;
    }

    /** call: the mean goes to the fragment when one is set; without one
        nothing happens. Nothing else changes either way. */
    method Call(m: ClientMean)
      modifies fragment
      ensures fragment != null ==> fragment.demanded == old(fragment.demanded) + [m]
    {
      if fragment != null {
        fragment.DemandMeanStrategy(m);
      }
    }
  }

  /** The strategy registry (`strategy.StrategyRegistery` is not part of
      this model): the strategies subscribed to it, in order. */
  class StrategyRegistry {
    var strategies: seq<StrategyMeanSupplAdd>

    constructor ()
      ensures strategies == []
    {
      strategies := [];
    }

    method AddStrategy(s: StrategyMeanSupplAdd)
      modifies this
      ensures strategies == old(strategies) + [s]
    {
      strategies := strategies + [s];
    }
  }

  /** The static state of the class: the INSTANCE field and the shared
      registry singleton it subscribes to, which other strategies may use
      too. */
  class StrategyStatics {
    var instance: StrategyMeanSupplAdd?
    const registry: StrategyRegistry

    /** Once the strategy exists, the registry holds it exactly once. */
    ghost predicate Valid()
      reads this, registry
    {
      instance != null ==> multiset(registry.strategies)[instance] == 1
    }

    /** Class initialisation: no instance yet, whatever the registry holds. */
    constructor (registry: StrategyRegistry)
      ensures this.registry == registry && instance == null && Valid()
    {
      this.registry := registry;
      instance := null;
    }

    /** getINSTANCE: the first call creates the strategy and appends it to
        the registry; every later call returns that same strategy and
        subscribes nothing. What the registry held before is kept. */
    method GetInstance() returns (r: StrategyMeanSupplAdd)
      requires Valid()
      modifies this, registry
      ensures Valid() && instance == r && multiset(registry.strategies)[r] == 1
      ensures old(instance) != null ==> r == old(instance) && registry.strategies == old(registry.strategies)
      ensures old(instance) == null ==>
                fresh(r) && r.fragment == null && registry.strategies == old(registry.strategies) + [r]
    {
      if instance == null {
        var created := new StrategyMeanSupplAdd();
        assert created !in registry.strategies;
        instance := created;
        registry.AddStrategy(created);
      }
      r := instance;
    }
  }

  /** Any two calls of getINSTANCE give the same strategy; together they
      append it to the registry at most once, and it is there exactly once. */
  method GetInstanceTwice(statics: StrategyStatics) returns (first: StrategyMeanSupplAdd, second: StrategyMeanSupplAdd)
    requires statics.Valid()
    modifies statics, statics.registry
    ensures first == second && multiset(statics.registry.strategies)[first] == 1
    ensures statics.registry.strategies ==
              old(statics.registry.strategies) + (if old(statics.instance) == null then [first] else [])
  {
    first := statics.GetInstance();
    second := statics.GetInstance();
  }
}
