/** `publish_dns`: resolver consumers and the standalone DNS server. */
module PublishDns {
  import opened Wrappers

  type Address = nat

  type Resolver = nat

  datatype DnsConfig = DnsConfig(resolver: Resolver, enabled: bool, listen: Option<Address>)

  /** A serve task with its socket address and the resolver in its slot. */
  datatype Server = Server(listen: Address, resolver: Resolver, running: bool)

  /** Where a dropped caller stops: nowhere, in the bind, or while the old
      task is awaited. */
  datatype Cut = Never | AtBind | AtTeardown

  class DnsRuntime {
    const vpnPlatform: bool
    var tunnel: Resolver
    var hook: Option<Resolver>
    var servers: seq<Server>
    var slot: Option<nat>

    /** Every serve task that was not aborted is the one in the slot. */
    ghost predicate Valid()
      reads this
    {
      && (slot.Some? ==> slot.value < |servers|)
      && forall i :: 0 <= i < |servers| && servers[i].running ==> slot == Some(i)
    }

    ghost predicate Live()
      reads this
    {
      slot.Some? && slot.value < |servers| && servers[slot.value].running
    }

    constructor (vpnPlatform: bool, resolver: Resolver)
      ensures Valid() && slot == None && tunnel == resolver && hook == None && this.vpnPlatform == vpnPlatform
    {
      this.vpnPlatform := vpnPlatform;
      tunnel, hook, servers, slot := resolver, None, [], None;
    }

    /** `install_resolver_everywhere`. */
    method Install(dns: DnsConfig)
      requires Valid()
      modifies this
      ensures Valid() && slot == old(slot) && |servers| == |old(servers)|
      ensures tunnel == dns.resolver && hook == if dns.enabled || vpnPlatform then Some(dns.resolver) else None
      ensures forall i :: 0 <= i < |servers| ==>
                servers[i] == if slot == Some(i) then old(servers)[i].(resolver := dns.resolver) else old(servers)[i]
    {
      tunnel := dns.resolver;
      hook := if dns.enabled || vpnPlatform then Some(dns.resolver) else None;
      if slot.Some? {
        servers := servers[slot.value := servers[slot.value].(resolver := dns.resolver)];
      }
    }

    /** The listener exits by itself. */
    method Exit()
      requires Valid()
      modifies this`servers
      ensures Valid() && !Live() && |servers| == |old(servers)|
      ensures forall i :: 0 <= i < |servers| ==> servers[i] == old(servers)[i].(running := false)
    {
      if slot.Some? { servers := servers[slot.value := servers[slot.value].(running := false)]; }
    }

    /** `bindOk` is the outcome of the bind, `dies` whether the old listener
        exits while it is awaited. */
    method Publish(dns: DnsConfig, bindOk: bool, dies: bool, cut: Cut) returns (finished: bool)
      requires Valid()
      modifies this
      ensures Valid() && |servers| >= |old(servers)|
      // every consumer that exists serves the new resolver
      ensures tunnel == dns.resolver && hook == (if dns.enabled || vpnPlatform then Some(dns.resolver) else None)
      ensures Live() ==> servers[slot.value].resolver == dns.resolver
      // the full outcome of a call that is not cut
      ensures finished ==>
                var wanted := dns.enabled && dns.listen.Some?;
                var kept := wanted && old(Live())
                    && old(slot.Some? && slot.value < |servers| && Some(servers[slot.value].listen) == dns.listen);
                if kept then slot == old(slot) && Live() && Some(servers[slot.value].listen) == dns.listen
                else if wanted && bindOk then slot == Some(|old(servers)|) && Live()
                    && Some(servers[slot.value].listen) == dns.listen
                else if wanted && old(Live()) && !dies then slot == old(slot) && Live()
                    && servers[slot.value].listen == old(servers)[slot.value].listen
                else slot == None
      // cut at any await: a wanted listener that was live is not lost
      ensures dns.enabled && dns.listen.Some? && old(Live()) && !dies ==> Live()
      ensures !finished ==> cut != Never
    {
      Install(dns);
      if slot.Some? {
        var h := servers[slot.value];
        if dns.enabled && dns.listen == Some(h.listen) && h.running { return true; }
      }
      var wanted := dns.enabled && dns.listen.Some?;
      if wanted {
        if dies { Exit(); }
        if cut == AtBind { return false; }
      }
      if wanted && bindOk {
        var before := slot;
        servers := servers + [Server(dns.listen.value, dns.resolver, true)];
        slot := Some(|servers| - 1);
        if before.Some? {
          servers := servers[before.value := servers[before.value].(running := false)];
          if cut == AtTeardown { return false; }
        }
      } else {
        var before := slot;
        slot := None;
        if before.Some? && wanted && servers[before.value].running {
          servers := servers[before.value := servers[before.value].(resolver := dns.resolver)];
          slot := before;
        } else if before.Some? {
          servers := servers[before.value := servers[before.value].(running := false)];
          if cut == AtTeardown { return false; }
        }
      }
      finished := true;
    }
  }
}
