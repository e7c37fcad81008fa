/** Which host port a deploy asks for: one that nothing else on the node holds, as the Hub's records and the node's
    agent report them. */
module Ports {
  import opened Jobs

  const FIRST_AUTO_PORT := 20000

  /** An app's port mappings; one that does not parse is None. */
  datatype App = App(id: ProjectId, name: string, node: NodeId, ports: seq<Option<nat>>, autoPort: bool)

  /** A container as a node's agent reports it, with the host ports its text publishes. */
  datatype Container = Container(project: Option<ProjectId>, name: string, published: seq<nat>)

  predicate OwnsContainer(c: Container, app: App) {
    if c.project.Some? then c.project.value == app.id else c.name == app.name || app.name + "-" <= c.name
  }

  /** A container belongs to the app that its label names, whatever its own name; without a label, to the app whose name
      it bears, alone or followed by a dash and more. */
  lemma OwnsExactlyWhen(c: Container, app: App)
    ensures OwnsContainer(c, app) <==>
      c.project == Some(app.id) ||
      (c.project == None && (c.name == app.name || exists more: string :: c.name == app.name + ("-" + more)))
  {
    if c.project.None? && app.name + "-" <= c.name {
      assert c.name == app.name + ("-" + c.name[|app.name| + 1..]);
    }
    if more: string :| c.name == app.name + ("-" + more) {
      assert c.name == (app.name + "-") + more;
    }
  }

  /** Some other app on the node was given the port, or a container that is not the app's own publishes it. */
  ghost predicate Held(apps: seq<App>, containers: seq<Container>, app: App, node: NodeId, port: nat) {
    (exists o :: o in apps && o.node == node && o.id != app.id && Some(port) in o.ports) ||
    (exists c :: c in containers && !OwnsContainer(c, app) && port in c.published)
  }

  method UsedHostPorts(apps: seq<App>, containers: seq<Container>, app: App, node: NodeId) returns (used: set<nat>)
    ensures forall port :: port in used <==> Held(apps, containers, app, node, port)
  {
    used := {};
    var i := 0;
    while i < |apps|
      invariant 0 <= i <= |apps|
      invariant forall port :: port in used <==>
        exists o :: o in apps[..i] && o.node == node && o.id != app.id && Some(port) in o.ports
    {
      assert apps[..i + 1] == apps[..i] + [apps[i]];
      if apps[i].node == node && apps[i].id != app.id {
        var given := ParsedPorts(apps[i].ports);
        used := used + given;
      }
      i := i + 1;
    }
    assert apps[..i] == apps;
    ghost var given := used;
    var k := 0;
    while k < |containers|
      invariant 0 <= k <= |containers|
      invariant forall port :: port in used <==>
        port in given || exists c :: c in containers[..k] && !OwnsContainer(c, app) && port in c.published
    {
      assert containers[..k + 1] == containers[..k] + [containers[k]];
      if !OwnsContainer(containers[k], app) {
        var published := SetOf(containers[k].published);
        used := used + published;
      }
      k := k + 1;
    }
    assert containers[..k] == containers;
  }

  method ParsedPorts(ports: seq<Option<nat>>) returns (parsed: set<nat>)
    ensures forall port :: port in parsed <==> Some(port) in ports
  {
    parsed := {};
    var i := 0;
    while i < |ports|
      invariant 0 <= i <= |ports| && forall port :: port in parsed <==> Some(port) in ports[..i]
    {
      if ports[i].Some? {
        parsed := parsed + {ports[i].value};
      }
      i := i + 1;
    }
  }

  method SetOf(ports: seq<nat>) returns (all: set<nat>)
    ensures forall port :: port in all <==> port in ports
  {
    all := {};
    var i := 0;
    while i < |ports|
      invariant 0 <= i <= |ports| && forall port :: port in all <==> port in ports[..i]
    {
      all := all + {ports[i]};
      i := i + 1;
    }
  }

  ghost predicate FirstClash(apps: seq<App>, containers: seq<Container>, app: App, node: NodeId, i: int) {
    0 <= i < |app.ports| && app.ports[i].Some? && Held(apps, containers, app, node, app.ports[i].value) &&
    forall port :: Some(port) in app.ports[..i] ==> !Held(apps, containers, app, node, port)
  }

  /** The first fixed port that is held, if any; an app on automatic ports has none. */
  method FixedPortClash(apps: seq<App>, containers: seq<Container>, app: App, node: NodeId) returns (clash: Option<nat>)
    ensures clash.None? <==>
      (app.autoPort || forall port :: Some(port) in app.ports ==> !Held(apps, containers, app, node, port))
    ensures clash.Some? ==> exists i :: FirstClash(apps, containers, app, node, i) && app.ports[i] == clash
  {
    if app.autoPort || app.ports == [] {
      return None;
    }
    var used := UsedHostPorts(apps, containers, app, node);
    var i := 0;
    while i < |app.ports|
      invariant 0 <= i <= |app.ports|
      invariant forall port :: Some(port) in app.ports[..i] ==> !Held(apps, containers, app, node, port)
    {
      if app.ports[i].Some? && app.ports[i].value in used {
        assert FirstClash(apps, containers, app, node, i);
        return app.ports[i];
      }
      i := i + 1;
    }
    return None;
  }

  /** From 20000 on, everything before the port is held and the port itself is not. */
  ghost predicate IsLeastUnheld(apps: seq<App>, containers: seq<Container>, app: App, node: NodeId, port: nat) {
    port >= 20000 && !Held(apps, containers, app, node, port) &&
    forall p: nat :: 20000 <= p < port ==> Held(apps, containers, app, node, p)
  }

  /** The port to ask for: the app's own on its own node if nothing else holds it, else the least automatic one free. */
  method PreferredHostPort(apps: seq<App>, containers: seq<Container>, app: App, node: NodeId) returns (port: nat)
    ensures if app.node == node && app.ports != [] && app.ports[0].Some? &&
               !Held(apps, containers, app, node, app.ports[0].value)
            then port == app.ports[0].value
            else IsLeastUnheld(apps, containers, app, node, port)
  {
    var used := UsedHostPorts(apps, containers, app, node);
    if app.node == node && app.ports != [] && app.ports[0].Some? && app.ports[0].value !in used {
      return app.ports[0].value;
    }
    port := LeastFree(used);
  }

  method LeastFree(held: set<nat>) returns (port: nat)
    ensures IsLeastFree(held, port)
  {
    port := FIRST_AUTO_PORT;
    while port in held
      invariant port >= FIRST_AUTO_PORT && Range(FIRST_AUTO_PORT, port) <= held
      decreases |held - Range(FIRST_AUTO_PORT, port)|
    {
      assert held - Range(FIRST_AUTO_PORT, port + 1) == (held - Range(FIRST_AUTO_PORT, port)) - {port};
      port := port + 1;
    }
    forall p | FIRST_AUTO_PORT <= p < port ensures p in held {
      assert p in Range(FIRST_AUTO_PORT, port);
    }
  }

  ghost predicate IsLeastFree(used: set<nat>, port: nat) {
    port >= FIRST_AUTO_PORT && port !in used && forall p :: FIRST_AUTO_PORT <= p < port ==> p in used
  }

  function Range(a: nat, b: nat): (ports: set<nat>)
    ensures forall p :: p in ports <==> a <= p < b
    decreases b
  {
    if a >= b then {} else Range(a, b - 1) + {b - 1}
  }

  lemma {:induction false} RangeSize(a: nat, b: nat)
    requires a <= b
    ensures |Range(a, b)| == b - a
    decreases b - a
  {
    if a < b {
      RangeSize(a, b - 1);
    }
  }

  lemma {:induction false} PartIsSmaller(part: set<nat>, whole: set<nat>)
    requires part <= whole
    ensures |part| <= |whole|
    decreases part
  {
    if part != {} {
      var x :| x in part;
      PartIsSmaller(part - {x}, whole - {x});
    }
  }

  /** The search goes at most as far as there are ports held, and ends at a real port exactly when one from 20000 on is
      free; so it always does while no more than 45535 are held. */
  lemma SearchEndsAtAPort(used: set<nat>, port: nat)
    requires IsLeastFree(used, port)
    ensures port <= 20000 + |used|
    ensures port <= 65535 <==> exists p :: 20000 <= p <= 65535 && p !in used
    ensures |used| <= 45535 ==> port <= 65535
  {
    assert Range(FIRST_AUTO_PORT, port) <= used;
    PartIsSmaller(Range(FIRST_AUTO_PORT, port), used);
    RangeSize(FIRST_AUTO_PORT, port);
  }
}
