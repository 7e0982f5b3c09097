// The commands of warp.py on the server, the store and the configuration that they change.
module WarpCommands {
  import opened Basics
  import opened Rotation
  import opened RotationTheorems

  class Warp {
    var world: World

    constructor (w: World)
      ensures world == w
    {
      world := w;
    }

    method SetSecret(name: string, value: Secret, ok: bool) returns (done: bool)
      modifies this
      ensures world == if ok then old(world).(store := old(world).store[name := value]) else old(world)
      ensures done == ok
    {
      if ok {
        world := world.(store := world.store[name := value]);
      }
      done := ok;
    }

    method UpdateConfigXml(u: Uuid, c: Conn, writable: bool) returns (r: Result)
      modifies this
      ensures (world, r) == Updated(old(world), u, writable, c)
    {
      if !UuidOk(u) || u !in world.config || !writable {
        return Failed;
      }
      world := world.(config := world.config[u := c]);
      r := Ok;
    }

    method CmdEnroll(u: Uuid, s: EnrollScript) returns (r: Result)
      modifies this
      ensures (world, r) == Enroll(old(world), u, s)
    {
      if u !in world.config {
        return Failed;
      }
      var c := world.config[u];
      if c.deviceId == "" || !HasToken(world.store, u) || s.keypair.None? {
        return Failed;
      }
      var k := s.keypair.value;
      if s.reply.Refused? {
        if s.reply.committed {
          world := world.(server := world.server[c.deviceId := k]);
        }
        return Failed;
      }
      world := world.(server := world.server[c.deviceId := k]);
      var done := SetSecret(Name(MasquePrivkey, u), PrivateKey(k), s.puts.privPut);
      if !done {
        return Raised;
      }
      if !s.puts.certMade {
        return Failed;
      }
      done := SetSecret(Name(MasqueCert, u), Certificate(k), s.puts.certPut);
      if !done {
        return Failed;
      }
      if s.reply.endpointKey != "" {
        done := SetSecret(Name(EndpointPubkey, u), Text(s.reply.endpointKey), s.puts.endpointPut);
        if !done {
          return Raised;
        }
      }
      r := UpdateConfigXml(u, c.(status := Enrolled, stamp := Stamped(s.now)), s.writable);
    }

    method CmdRegister(u: Uuid, s: RegisterScript) returns (r: Result)
      modifies this
      ensures (world, r) == Register(old(world), u, s)
    {
      if u !in world.config || world.config[u].protocol.Cloudflared? || s.wireguardKey.None? {
        return Failed;
      }
      if s.reply.RegRefused? || s.reply.deviceId == "" || s.reply.token == "" {
        return Failed;
      }
      var c := world.config[u];
      var masque := c.protocol.Masque?;
      var peerKey := s.reply.peerKey;
      if masque {
        if s.enroll.keypair.None? {
          return Failed;
        }
        if s.enroll.reply.Refused? {
          if s.enroll.reply.committed {
            world := world.(server := world.server[s.reply.deviceId := s.enroll.keypair.value]);
          }
          return Failed;
        }
        world := world.(server := world.server[s.reply.deviceId := s.enroll.keypair.value]);
        peerKey := s.enroll.reply.endpointKey;
      }
      var done := SetSecret(Name(DeviceToken, u), Text(s.reply.token), s.tokenPut);
      if !done {
        return Raised;
      }
      if masque {
        done := SetSecret(Name(MasquePrivkey, u), PrivateKey(s.enroll.keypair.value), s.enroll.puts.privPut);
        if !done {
          return Raised;
        }
        if !s.enroll.puts.certMade {
          return Failed;
        }
        done := SetSecret(Name(MasqueCert, u), Certificate(s.enroll.keypair.value), s.enroll.puts.certPut);
        if !done {
          return Failed;
        }
      }
      if peerKey != "" {
        done := SetSecret(Name(EndpointPubkey, u), Text(peerKey), s.enroll.puts.endpointPut);
        if !done {
          return Raised;
        }
      }
      done := SetSecret(Name(WgPrivkey, u), Text(s.wireguardKey.value), s.wgPut);
      if !done {
        return Raised;
      }
      var c' := c.(deviceId := s.reply.deviceId, status := if masque then Enrolled else Registered,
                   stamp := Stamped(s.enroll.now));
      r := UpdateConfigXml(u, c', s.enroll.writable);
    }

    /**
     * cmd_rotatekeyscheck: the due connections, the results of the trials made, and the reply, if
     * the command lives to return one.
     */
    method CmdRotateKeysCheck(order: seq<Uuid>, now: int, scripts: seq<EnrollScript>)
      returns (due: seq<Uuid>, results: seq<Result>, reply: Option<CheckReply>)
      requires Ordered(world.config, order) && |scripts| == |order|
      modifies this
      ensures due == DueList(old(world).config, order, now, |order|)
      ensures |due| <= |order| && (world, results) == Rotated(old(world), due, scripts, |due|)
      ensures reply.None? <==> exists i :: 0 <= i < |due| && WouldRaise(old(world), due[i], scripts[i])
      ensures reply.Some? ==> reply.value == CheckReply(|old(world).config|, CountOk(results), results)
      ensures reply.Some? ==> reply.value.rotated <= |results| <= reply.value.checked
    {
      due := [];
      for i := 0 to |order|
        invariant world == old(world) && due == DueList(world.config, order, now, i) && |due| <= i
      {
        if Due(world.config[order[i]], now) {
          due := due + [order[i]];
        }
      }
      var checked := |world.config|;
      results := [];
      var i := 0;
      while i < |due| && !Broken(results)
        invariant i <= |due| && |results| == i
        invariant (world, results) == Rotated(old(world), due, scripts, i)
      {
        var r := CmdEnroll(due[i], scripts[i]);
        results := results + [r];
        i := i + 1;
      }
      if Broken(results) {
        BrokenStays(old(world), due, scripts, i, |due|);
      }
      RaisesExactlyWhen(old(world), order, now, scripts);
      if Broken(results) {
        return due, results, None;
      }
      reply := Some(CheckReply(checked, CountOk(results), results));
    }
  }
}
