/** The sonar-grenade plugin: the wall filter applied to trace results, the
    three-sample visibility test, the scan run when a decoy starts, the
    on/off switch with its buy-time command, and the chat and console
    commands that hand out the grenade.

    Players, pawns, the projectile and entity lookups are plain values
    supplied by the host. The wall traces a scan makes are answered by a
    Host value: a function from the query to the trace reply, and a function
    from an entity address to what resolving that entity gives. */
module Sonar {

  import opened Wrappers
  import opened Text
  import opened TraceTypes

  const Terrorist: int := 2
  const CounterTerrorist: int := 3

  /** A hit that travelled this far or further is not a wall. */
  const WallFraction: real := 0.97
  const FallbackEyeHeight: real := 64.0
  const MinEyeHeight: real := 30.0

  const BlinkSound: string := "sounds/ui/csgo_ui_button_rollover_large.vsnd"
  const PlayBlinkSound: string := "play " + BlinkSound

  const BuyTimeOff: string := "mp_buytime 0"
  const BuyTimeOn: string := "mp_buytime 9999"

  datatype HookResult = Continue | Handled

  /** A player's body: its origin and the height of its eyes above it, each
      possibly unavailable. */
  datatype Pawn = Pawn(origin: Option<Vec>, viewOffsetZ: Option<real>)

  /** A player as the plugin sees it. inRadius says whether the pawn is
      within the 3000-unit scan radius of the decoy being handled. */
  datatype Player = Player(
    valid: bool,
    alive: bool,
    team: int,
    name: string,
    pawn: Option<Pawn>,
    inRadius: bool)

  /** The thrown decoy. */
  datatype Projectile = Projectile(valid: bool, origin: Option<Vec>, handle: int)

  /** What resolving a hit entity gives: an exception, or an instance with a
      validity flag and a possibly missing designer name. */
  datatype EntityLookup = LookupThrows | Instance(valid: bool, designerName: Option<string>)

  /** One wall trace: from, to, and the entity to skip. */
  datatype TraceQuery = TraceQuery(from: Vec, to: Vec, skip: int)

  /** The host's answers to wall traces and entity lookups. */
  datatype Host = Host(trace: TraceQuery -> TraceReply, entityAt: int -> EntityLookup)

  // ---------------------------------------------------------------------
  // Wall filter
  // ---------------------------------------------------------------------

  const WallPrefixes: seq<string> := ["world", "func_wall", "func_brush", "func_breakable", "prop_static"]

  /** A designer name counts as level geometry when it is empty or starts,
      ignoring case, with one of the wall prefixes. */
  function IsWallEntity(name: string): (r: bool)
    ensures r <==> name == [] || exists p :: p in WallPrefixes && StartsWithIgnoreCase(name, p)
  {
    if name == [] then true
    else if StartsWithIgnoreCase(name, "world") then true
    else if StartsWithIgnoreCase(name, "func_wall") then true
    else if StartsWithIgnoreCase(name, "func_brush") then true
    else if StartsWithIgnoreCase(name, "func_breakable") then true
    else if StartsWithIgnoreCase(name, "prop_static") then true
    else false
  }

  /** The wall filter does not depend on the case of the name. */
  lemma {:induction false} IsWallEntityIgnoresCase(name: string)
    ensures IsWallEntity(Lower(name)) == IsWallEntity(name)
  {
    forall p | p in WallPrefixes
      ensures StartsWithIgnoreCase(Lower(name), p) <==> StartsWithIgnoreCase(name, p)
    {
      if |p| <= |name| {
        assert forall i :: 0 <= i < |p| ==> LowerChar(Lower(name)[..|p|][i]) == LowerChar(name[..|p|][i]);
      }
    }
  }

  /** World geometry and brushes are walls, in any case, and so is an
      unnamed entity. */
  lemma WallEntityExamples()
    ensures IsWallEntity("world_geometry_x")
    ensures IsWallEntity("WorldSpawn")
    ensures IsWallEntity("func_wall_toggle")
    ensures IsWallEntity("")
  {
    assert StartsWithIgnoreCase("world_geometry_x", "world");
    assert StartsWithIgnoreCase("WorldSpawn", "world");
    assert StartsWithIgnoreCase("func_wall_toggle", "func_wall");
  }

  /** Players and doors are not walls. */
  lemma NonWallEntityExamples()
    ensures !IsWallEntity("player_pawn")
    ensures !IsWallEntity("func_door")
  {
    DiffersAt("player_pawn", "world", 0);
    DiffersAt("player_pawn", "func_wall", 0);
    DiffersAt("player_pawn", "func_brush", 0);
    DiffersAt("player_pawn", "func_breakable", 0);
    DiffersAt("player_pawn", "prop_static", 1);
    DiffersAt("func_door", "world", 0);
    DiffersAt("func_door", "func_wall", 5);
    DiffersAt("func_door", "func_brush", 5);
    DiffersAt("func_door", "func_breakable", 5);
    DiffersAt("func_door", "prop_static", 0);
  }

  /** Whether one wall trace is blocked by level geometry, given the trace
      reply and what resolving its hit entity gives. A failed trace, an
      all-solid start and a hit at fraction 0.97 or beyond are not walls; a
      hit without an entity is; otherwise the entity must be valid and carry
      a wall name (a missing name counts as empty). */
  function SingleTrace(reply: TraceReply, hit: EntityLookup): (blocked: bool)
    ensures blocked <==>
      && reply.success
      && !reply.result.IsAllSolid()
      && reply.result.fraction < WallFraction
      && (reply.result.hitEntity == 0
          || (hit.Instance? && hit.valid && IsWallEntity(hit.designerName.GetOr(""))))
  {
    if !reply.success then false
    else if reply.result.IsAllSolid() then false
    else if reply.result.fraction >= WallFraction then false
    else if reply.result.hitEntity == 0 then true
    else match hit
      case LookupThrows => false
      case Instance(valid, designerName) =>
        if !valid then false
        else if IsWallEntity(designerName.GetOr("")) then true
        else false
  }

  /** The fail-open cases: whatever else the reply and the entity say, a
      failed trace (as an unbound binder answers), an all-solid start, a
      full or 0.97 fraction, and a resolving exception all read as no wall;
      a hit with no entity reads as a wall. */
  lemma SingleTraceCases(reply: TraceReply, hit: EntityLookup)
    ensures !SingleTrace(TraceReply(false, DefaultResult), hit)
    ensures reply.result.allSolid != 0 ==> !SingleTrace(reply, hit)
    ensures reply.result.fraction == 1.0 || reply.result.fraction == 0.97 ==> !SingleTrace(reply, hit)
    ensures reply.result.hitEntity != 0 && hit == LookupThrows ==> !SingleTrace(reply, hit)
    ensures (reply.success && reply.result.allSolid == 0 && reply.result.fraction < 0.97
             && reply.result.hitEntity == 0) ==> SingleTrace(reply, hit)
  {
  }

  /** Only a successful trace that hit something before its end point, and
      did not start inside solid, can be a wall; in particular a miss never
      is. */
  lemma BlockedTraceDidHit(reply: TraceReply, hit: EntityLookup)
    ensures SingleTrace(reply, hit) ==>
      reply.success && reply.result.DidHit() && !reply.result.IsAllSolid()
  {
  }

  /** Whether the wall trace for a query is blocked, per the host. */
  predicate Blocked(host: Host, q: TraceQuery)
  {
    var reply := host.trace(q);
    SingleTrace(reply, host.entityAt(reply.result.hitEntity))
  }

  // ---------------------------------------------------------------------
  // Visibility of one target
  // ---------------------------------------------------------------------

  /** The eye height used for sampling: the pawn's view offset, or 64 when
      it is unavailable or below 30. */
  function EyeHeight(viewOffsetZ: Option<real>): (eyeZ: real)
    ensures eyeZ >= MinEyeHeight
    ensures eyeZ == FallbackEyeHeight || viewOffsetZ == Some(eyeZ)
    ensures viewOffsetZ.Some? && viewOffsetZ.value >= MinEyeHeight ==> eyeZ == viewOffsetZ.value
  {
    var z := if viewOffsetZ.Some? then viewOffsetZ.value else FallbackEyeHeight;
    if z < MinEyeHeight then FallbackEyeHeight else z
  }

  /** Head, chest and waist points above the origin at 100%, 60% and 35% of
      the eye height. */
  function SamplePoints(origin: Vec, eyeZ: real): (pts: seq<Vec>)
    ensures |pts| == 3
    ensures forall k :: 0 <= k < 3 ==> pts[k].x == origin.x && pts[k].y == origin.y
    ensures pts[0].z == origin.z + eyeZ
    ensures pts[1].z == origin.z + eyeZ * 0.6 && pts[2].z == origin.z + eyeZ * 0.35
    ensures eyeZ > 0.0 ==> pts[0].z > pts[1].z > pts[2].z > origin.z
  {
    [Vec(origin.x, origin.y, origin.z + eyeZ),
     Vec(origin.x, origin.y, origin.z + eyeZ * 0.6),
     Vec(origin.x, origin.y, origin.z + eyeZ * 0.35)]
  }

  /** The three wall traces from the sonar to a pawn's sample points. */
  function SampleQueries(sonarPos: Vec, pawn: Pawn, skip: int): (qs: seq<TraceQuery>)
    requires pawn.origin.Some?
    ensures |qs| == 3
    ensures forall k :: 0 <= k < 3 ==> qs[k].from == sonarPos && qs[k].skip == skip
    ensures forall k :: 0 <= k < 3 ==>
      qs[k].to == SamplePoints(pawn.origin.value, EyeHeight(pawn.viewOffsetZ))[k]
  {
    var pts := SamplePoints(pawn.origin.value, EyeHeight(pawn.viewOffsetZ));
    [TraceQuery(sonarPos, pts[0], skip), TraceQuery(sonarPos, pts[1], skip),
     TraceQuery(sonarPos, pts[2], skip)]
  }

  predicate HasPawnOrigin(target: Player)
  {
    target.pawn.Some? && target.pawn.value.origin.Some?
  }

  /** Whether a target was seen, and the traces made to find out. */
  datatype Sight = Sight(visible: bool, queries: seq<TraceQuery>)

  /** A target is visible when at least one of its head, chest and waist
      traces is not blocked; the traces are made in that order and stop at
      the first unblocked one. A target without pawn or origin is not
      visible and costs no trace. */
  function IsTargetVisible(sonarPos: Vec, target: Player, skip: int, host: Host): Sight
  {
    if !HasPawnOrigin(target) then Sight(false, [])
    else
      var qs := SampleQueries(sonarPos, target.pawn.value, skip);
      if !Blocked(host, qs[0]) then Sight(true, qs[..1])
      else if !Blocked(host, qs[1]) then Sight(true, qs[..2])
      else if !Blocked(host, qs[2]) then Sight(true, qs)
      else Sight(false, qs)
  }

  /** Without pawn or origin a target is invisible and costs no trace;
      otherwise the traces made are a prefix of head, chest and waist, all
      but the last of them blocked, and the target is visible exactly when
      the last trace made is unblocked, which is exactly when some sample
      point is unblocked. */
  lemma TargetVisibility(sonarPos: Vec, target: Player, skip: int, host: Host)
    ensures var s := IsTargetVisible(sonarPos, target, skip, host);
      && (!HasPawnOrigin(target) ==> s == Sight(false, []))
      && (HasPawnOrigin(target) ==>
        var qs := SampleQueries(sonarPos, target.pawn.value, skip);
        && 1 <= |s.queries| <= 3
        && s.queries == qs[..|s.queries|]
        && (forall k :: 0 <= k < |s.queries| - 1 ==> Blocked(host, s.queries[k]))
        && (s.visible <==> !Blocked(host, s.queries[|s.queries| - 1]))
        && (s.visible <==> exists k :: 0 <= k < 3 && !Blocked(host, qs[k])))
  {
  }

  // ---------------------------------------------------------------------
  // The scan run when a decoy starts
  // ---------------------------------------------------------------------

  /** A player the scan tests: valid, alive, on another team than the
      thrower, with a pawn and origin, inside the scan radius. */
  predicate Eligible(target: Player, attackerTeam: int)
  {
    target.valid && target.alive && target.team != attackerTeam
    && HasPawnOrigin(target) && target.inRadius
  }

  datatype ScanResult = ScanResult(found: bool, queries: seq<TraceQuery>)

  /** The scan over the player list in order: ineligible players are
      skipped without tracing, and the scan stops at the first visible
      target. */
  function Scan(players: seq<Player>, attackerTeam: int, pos: Vec, skip: int, host: Host): ScanResult
    decreases |players|
  {
    if players == [] then ScanResult(false, [])
    else
      var rest := Scan(players[1..], attackerTeam, pos, skip, host);
      if !Eligible(players[0], attackerTeam) then rest
      else
        var sight := IsTargetVisible(pos, players[0], skip, host);
        if sight.visible then ScanResult(true, sight.queries)
        else ScanResult(rest.found, sight.queries + rest.queries)
  }

  /** The scan finds someone exactly when some eligible player is visible,
      and makes no trace when nobody is eligible. */
  lemma {:induction false} ScanFindsVisibleEnemy(players: seq<Player>, team: int, pos: Vec, skip: int, host: Host)
    ensures var r := Scan(players, team, pos, skip, host);
      && (r.found <==> exists j :: 0 <= j < |players| && Eligible(players[j], team)
                                  && IsTargetVisible(pos, players[j], skip, host).visible)
      && ((forall j :: 0 <= j < |players| ==> !Eligible(players[j], team)) ==> r.queries == [])
    decreases |players|
  {
    if players != [] {
      ScanFindsVisibleEnemy(players[1..], team, pos, skip, host);
      assert forall j :: 0 < j < |players| ==> players[j] == players[1..][j - 1];
    }
  }

  /** Whether the scan finds someone does not depend on the order of the
      player list. */
  lemma ScanFoundIgnoresOrder(a: seq<Player>, b: seq<Player>, team: int, pos: Vec, skip: int, host: Host)
    requires forall p :: p in a <==> p in b
    ensures Scan(a, team, pos, skip, host).found == Scan(b, team, pos, skip, host).found
  {
    ScanFindsVisibleEnemy(a, team, pos, skip, host);
    ScanFindsVisibleEnemy(b, team, pos, skip, host);
    if Scan(a, team, pos, skip, host).found {
      var j :| 0 <= j < |a| && Eligible(a[j], team) && IsTargetVisible(pos, a[j], skip, host).visible;
      assert a[j] in b;
    }
    if Scan(b, team, pos, skip, host).found {
      var j :| 0 <= j < |b| && Eligible(b[j], team) && IsTargetVisible(pos, b[j], skip, host).visible;
      assert b[j] in a;
    }
  }

  /** When every player is out of the scan radius, the scan finds nobody
      and makes no trace at all. */
  lemma OutOfRadiusIssuesNoTraces(players: seq<Player>, team: int, pos: Vec, skip: int, host: Host)
    requires forall j :: 0 <= j < |players| ==> !players[j].inRadius
    ensures Scan(players, team, pos, skip, host) == ScanResult(false, [])
  {
    ScanFindsVisibleEnemy(players, team, pos, skip, host);
  }

  /** The scan stops at the first eligible visible target: it is found, and
      whatever follows it in the list is neither traced nor consulted. */
  lemma {:induction false} ScanStopsAtFirstVisible(players: seq<Player>, i: nat,
                                                   team: int, pos: Vec, skip: int, host: Host)
    requires i < |players| && Eligible(players[i], team)
    requires IsTargetVisible(pos, players[i], skip, host).visible
    ensures Scan(players, team, pos, skip, host) == Scan(players[..i + 1], team, pos, skip, host)
    ensures Scan(players, team, pos, skip, host).found
    decreases i
  {
    ScanFindsVisibleEnemy(players, team, pos, skip, host);
    assert players[..i + 1][0] == players[0];
    if i > 0 {
      ScanStopsAtFirstVisible(players[1..], i - 1, team, pos, skip, host);
      assert players[..i + 1][1..] == players[1..][..i];
    }
  }

  /** An ineligible player is skipped without a trace: the scan gives the
      same result, traces included, as over the list without that player. */
  lemma {:induction false} IneligiblePlayerIsSkipped(players: seq<Player>, i: nat,
                                                     team: int, pos: Vec, skip: int, host: Host)
    requires i < |players| && !Eligible(players[i], team)
    ensures Scan(players, team, pos, skip, host) == Scan(players[..i] + players[i + 1..], team, pos, skip, host)
    decreases i
  {
    if i == 0 {
      assert players[..0] + players[1..] == players[1..];
    } else {
      IneligiblePlayerIsSkipped(players[1..], i - 1, team, pos, skip, host);
      var without := players[..i] + players[i + 1..];
      assert without[0] == players[0];
      assert without[1..] == players[1..][..i - 1] + players[1..][i..];
    }
  }

  /** When every wall trace fails, as they all do while the binder is not
      loaded, the scan fails open: it finds someone exactly when some player
      is eligible. */
  lemma EveryTraceFailedFindsAnyEligible(players: seq<Player>, team: int, pos: Vec, skip: int, host: Host)
    requires forall q :: !host.trace(q).success
    ensures Scan(players, team, pos, skip, host).found <==>
      exists j :: 0 <= j < |players| && Eligible(players[j], team)
  {
    ScanFindsVisibleEnemy(players, team, pos, skip, host);
    forall j | 0 <= j < |players| && Eligible(players[j], team)
      ensures IsTargetVisible(pos, players[j], skip, host).visible
    {
      var qs := SampleQueries(pos, players[j].pawn.value, skip);
      assert !Blocked(host, qs[0]);
    }
  }

  /** The scan loop of the decoy handler: players are taken in list order,
      those that are invalid, dead, on the thrower's team, without pawn or
      origin, or out of the radius are skipped, and the loop breaks at the
      first visible target. */
  method ScanPlayers(players: seq<Player>, team: int, pos: Vec, skip: int, host: Host)
    returns (anyTargetFound: bool, queries: seq<TraceQuery>)
    ensures ScanResult(anyTargetFound, queries) == Scan(players, team, pos, skip, host)
  {
    ghost var whole := Scan(players, team, pos, skip, host);
    anyTargetFound := false;
    queries := [];
    var i := 0;
    while i < |players|
      invariant 0 <= i <= |players|
      invariant !anyTargetFound
      invariant var rest := Scan(players[i..], team, pos, skip, host);
        whole == ScanResult(rest.found, queries + rest.queries)
    {
      var target := players[i];
      assert players[i..][0] == target && players[i..][1..] == players[i + 1..];
      if !target.valid || !target.alive || target.team == team {
        i := i + 1;
        continue;
      }
      if !HasPawnOrigin(target) {
        i := i + 1;
        continue;
      }
      if !target.inRadius {
        i := i + 1;
        continue;
      }
      var sight := IsTargetVisible(pos, target, skip, host);
      queries := queries + sight.queries;
      if sight.visible {
        anyTargetFound := true;
        break;
      }
      i := i + 1;
    }
  }

  /** What handling one decoy-started event did. */
  datatype DecoyReport = DecoyReport(
    hook: HookResult,
    validated: bool,
    ringAt: Option<Vec>,
    found: bool,
    queries: seq<TraceQuery>,
    clientCommands: seq<string>,
    killed: bool)

  const Ignored: DecoyReport := DecoyReport(Continue, false, None, false, [], [], false)

  /** The console command: anyone without the permission is refused (the
      server console itself always passes), the target argument defaults
      to "@me", so without one the issuer alone is served and the server
      console nobody, and the on/off switch is not consulted. */
  function ConsoleTargets(player: Option<Player>, hasPermission: bool, args: seq<string>,
                          players: seq<Player>): (targets: seq<Player>)
    ensures forall p :: p in targets ==> p.valid && p.alive
    ensures player.Some? && !hasPermission ==> targets == []
    ensures |args| <= 1 ==>
      targets == (if player.Some? && hasPermission && Selected(player.value, None)
                  then [player.value] else [])
    ensures (player.None? || hasPermission) && |args| > 1 ==>
      targets == SelectTargets(player, args[1], players)
  {
    assert Lower("@me") == "@me";
    if player.Some? && !hasPermission then []
    else SelectTargets(player, if |args| > 1 then args[1] else "@me", players)
  }

  // ---------------------------------------------------------------------
  // Choosing who receives a grenade
  // ---------------------------------------------------------------------

  /** Valid and alive, and on the given team when one is given. */
  predicate Selected(p: Player, team: Option<int>)
  {
    p.valid && p.alive && (team.Some? ==> p.team == team.value)
  }

  /** The selected players, in list order. */
  function LivingOf(players: seq<Player>, team: Option<int>): (r: seq<Player>)
    ensures |r| <= |players|
    ensures forall p :: p in r <==> p in players && Selected(p, team)
    ensures forall p :: multiset(r)[p] == if Selected(p, team) then multiset(players)[p] else 0
  {
    if players == [] then []
    else
      var rest := LivingOf(players[1..], team);
      assert players == [players[0]] + players[1..];
      assert forall p :: p in players <==> p == players[0] || p in players[1..];
      if Selected(players[0], team) then [players[0]] + rest else rest
  }

  /** The index of the first player whose lowered name contains the lowered
      argument. */
  function FirstNameMatch(players: seq<Player>, arg: string): (r: Option<nat>)
    ensures r.Some? ==> r.value < |players| && Contains(Lower(players[r.value].name), arg)
    ensures r.Some? ==> forall j :: 0 <= j < r.value ==> !Contains(Lower(players[j].name), arg)
    ensures r.None? ==> forall j :: 0 <= j < |players| ==> !Contains(Lower(players[j].name), arg)
  {
    if players == [] then None
    else if Contains(Lower(players[0].name), arg) then Some(0)
    else
      match FirstNameMatch(players[1..], arg)
      case None => None
      case Some(j) => Some(j + 1)
  }

  /** The players a selector picks. "@all", "@t" and "@ct" pick every valid
      living player (of that team), each as often as it is listed; "@me" picks the issuer if valid and
      alive; anything else picks the first player whose name contains it,
      and only if that player is valid and alive. The selector is compared
      after lowering. */
  function SelectTargets(issuer: Option<Player>, targetArg: string, players: seq<Player>): (targets: seq<Player>)
    ensures forall p :: p in targets ==> p.valid && p.alive
    ensures Lower(targetArg) == "@all" ==>
      forall p :: multiset(targets)[p] == if Selected(p, None) then multiset(players)[p] else 0
    ensures Lower(targetArg) == "@t" ==>
      forall p :: multiset(targets)[p] == if Selected(p, Some(Terrorist)) then multiset(players)[p] else 0
    ensures Lower(targetArg) == "@ct" ==>
      forall p :: multiset(targets)[p] == if Selected(p, Some(CounterTerrorist)) then multiset(players)[p] else 0
    ensures Lower(targetArg) == "@me" ==> targets == (if issuer.Some? && Selected(issuer.value, None) then [issuer.value] else [])
    ensures Lower(targetArg) !in ["@all", "@t", "@ct", "@me"] ==>
      match FirstNameMatch(players, Lower(targetArg))
      case None => targets == []
      case Some(j) => targets == (if Selected(players[j], None) then [players[j]] else [])
  {
    var arg := Lower(targetArg);
    if arg == "@all" then LivingOf(players, None)
    else if arg == "@t" then LivingOf(players, Some(Terrorist))
    else if arg == "@ct" then LivingOf(players, Some(CounterTerrorist))
    else if arg == "@me" then
      if issuer.Some? && issuer.value.valid && issuer.value.alive then [issuer.value] else []
    else
      match FirstNameMatch(players, arg)
      case None => []
      case Some(j) => if players[j].valid && players[j].alive then [players[j]] else []
  }

  /** A name search stops at the first match: when that player is dead or
      invalid nobody is picked, even if a later player also matches and is
      alive. */
  lemma {:induction false} NameSearchStopsAtFirstMatch(issuer: Option<Player>, first: Player, later: Player, arg: string)
    requires Lower(arg) !in ["@all", "@t", "@ct", "@me"]
    requires Contains(Lower(first.name), Lower(arg)) && Contains(Lower(later.name), Lower(arg))
    requires !first.alive && later.valid && later.alive
    ensures SelectTargets(issuer, arg, [first, later]) == []
  {
    assert FirstNameMatch([first, later], Lower(arg)) == Some(0);
  }

  // ---------------------------------------------------------------------
  // Chat commands
  // ---------------------------------------------------------------------

  /** A chat line read as a command word and a target argument. */
  datatype ChatLine = ChatLine(command: string, targetArg: string)

  /** The trimmed message cut at single spaces: the command word is the
      lowered first field, and the target argument is the second field, or
      "@me" when there is none. */
  function ParseChat(message: string): (c: ChatLine)
    ensures ' ' !in c.command
    ensures forall i :: 0 <= i < |c.command| ==> !('A' <= c.command[i] <= 'Z')
    ensures ' ' !in c.targetArg
  {
    var line := Trim(message);
    var args := Split(line, ' ');
    assert args[0] in args;
    LowerAddsNoSpace(args[0]);
    assert |args| > 1 ==> args[1] in args;
    ChatLine(Lower(args[0]), if |args| > 1 then args[1] else "@me")
  }

  /** Where the line is cut: the command word is the lowered text before
      the first space of the trimmed message, and the target argument is
      the text after that space up to the next space or the end, or "@me"
      when the trimmed message has no space, so that a message without an
      inner space is read as its lowered self aimed at "@me". */
  lemma ParseChatFirstSpace(message: string)
    ensures var line := Trim(message);
      ' ' !in line ==> ParseChat(message) == ChatLine(Lower(line), "@me")
    ensures var line := Trim(message); var k := IndexOf(line, ' ');
      && ParseChat(message).command == Lower(line[..k])
      && (k == |line| ==> ParseChat(message).targetArg == "@me")
      && (k < |line| ==> ParseChat(message).targetArg == line[k + 1..][..IndexOf(line[k + 1..], ' ')])
  {
    var line := Trim(message);
    var k := IndexOf(line, ' ');
    SplitAtFirst(line, ' ');
    if k < |line| {
      assert line[k] in line;
      SplitAtFirst(line[k + 1..], ' ');
    } else {
      assert line[..k] == line;
    }
  }

  /** A command word followed by one space and an argument is read as that
      word, lowered, and that argument. */
  lemma {:induction false} ParseChatWordAndArgument(word: string, arg: string)
    requires word != [] && arg != []
    requires forall i :: 0 <= i < |word| ==> !IsWhiteSpace(word[i])
    requires forall i :: 0 <= i < |arg| ==> !IsWhiteSpace(arg[i])
    ensures ParseChat(word + " " + arg) == ChatLine(Lower(word), arg)
  {
    var line := word + " " + arg;
    TrimUnchanged(line);
    assert Join([word, arg], ' ') == line;
    SplitJoin([word, arg], ' ');
  }

  /** Two spaces after the command word make the argument empty, and the
      empty argument matches every name, so the first player in the list is
      the one considered. */
  lemma {:induction false} DoubleSpaceSelectsFirstPlayer(word: string, arg: string, first: Player, others: seq<Player>)
    requires word != [] && arg != []
    requires forall i :: 0 <= i < |word| ==> !IsWhiteSpace(word[i])
    requires forall i :: 0 <= i < |arg| ==> !IsWhiteSpace(arg[i])
    requires first.valid && first.alive
    ensures ParseChat(word + "  " + arg).targetArg == ""
    ensures SelectTargets(None, "", [first] + others) == [first]
  {
    var line := word + "  " + arg;
    TrimUnchanged(line);
    assert [word, "", arg][1..] == ["", arg] && ["", arg][1..] == [arg];
    assert Join(["", arg], ' ') == [' '] + arg;
    assert word + [' '] + ([' '] + arg) == line;
    assert Join([word, "", arg], ' ') == line;
    SplitJoin([word, "", arg], ' ');
    ContainsEmpty(Lower(first.name));
    assert Lower("") == "";
  }

  /** What the plugin does with a chat message besides its hook result. */
  datatype ChatAction =
    | NoAction
    | Toggle
    | NoPermissionReply
    | DisabledReply
    | Distribute(targetArg: string)

  datatype ChatDecision = ChatDecision(hook: HookResult, action: ChatAction)

  /** How a chat message is dispatched. Only a valid player's "!sonarbomb"
      and "!sonar" are handled, and they always are; "!sonarbomb" toggles
      with the permission and replies otherwise; "!sonar" distributes only
      with the permission and while the plugin is active. */
  function DispatchChat(player: Option<Player>, hasPermission: bool, active: bool,
                        message: string): (d: ChatDecision)
    ensures player.None? || !player.value.valid ==> d == ChatDecision(Continue, NoAction)
    ensures player.Some? && player.value.valid ==>
      (d.hook == Handled <==> ParseChat(message).command in ["!sonarbomb", "!sonar"])
    ensures d.action == Toggle <==>
      player.Some? && player.value.valid && ParseChat(message).command == "!sonarbomb" && hasPermission
    ensures d.action.Distribute? <==>
      player.Some? && player.value.valid && ParseChat(message).command == "!sonar" && hasPermission && active
    ensures d.action.Distribute? ==> d.action.targetArg == ParseChat(message).targetArg
  {
    if player.None? || !player.value.valid then ChatDecision(Continue, NoAction)
    else
      var line := ParseChat(message);
      if line.command == "!sonarbomb" then
        ChatDecision(Handled, if hasPermission then Toggle else NoPermissionReply)
      else if line.command == "!sonar" then
        if !hasPermission then ChatDecision(Handled, NoAction)
        else if !active then ChatDecision(Handled, DisabledReply)
        else ChatDecision(Handled, Distribute(line.targetArg))
      else ChatDecision(Continue, NoAction)
  }

  // ---------------------------------------------------------------------
  // The plugin object
  // ---------------------------------------------------------------------

  class SonarPlugin {
    var isPluginActive: bool
    /** The server commands issued so far, oldest first. */
    var serverCommands: seq<string>

    /** Loading starts inactive and opens the market. */
    constructor Load()
      ensures !isPluginActive && serverCommands == [BuyTimeOn]
    {
      isPluginActive := false;
      serverCommands := [BuyTimeOn];
    }

    /** Flips the switch; turning on closes the market, turning off reopens
        it. */
    method TogglePluginState()
      modifies this
      ensures isPluginActive == !old(isPluginActive)
      ensures isPluginActive ==> serverCommands == old(serverCommands) + [BuyTimeOff]
      ensures !isPluginActive ==> serverCommands == old(serverCommands) + [BuyTimeOn]
    {
      isPluginActive := !isPluginActive;
      if isPluginActive {
        serverCommands := serverCommands + [BuyTimeOff];
      } else {
        serverCommands := serverCommands + [BuyTimeOn];
      }
    }

    /** Handles a chat message: returns the hook result and the players who
        receive a grenade. */
    method OnPlayerChat(player: Option<Player>, hasPermission: bool, message: string,
                        players: seq<Player>)
      returns (hook: HookResult, targets: seq<Player>)
      modifies this
      ensures var d := DispatchChat(player, hasPermission, old(isPluginActive), message);
        && hook == d.hook
        && isPluginActive == (if d.action == Toggle then !old(isPluginActive) else old(isPluginActive))
        && serverCommands == (if d.action == Toggle then old(serverCommands) + [if isPluginActive then BuyTimeOff else BuyTimeOn]
                              else old(serverCommands))
        && targets == (if d.action.Distribute? then SelectTargets(player, d.action.targetArg, players) else [])
    {
      targets := [];
      if player.None? || !player.value.valid { return Continue, targets; }
      var line := ParseChat(message);

      if line.command == "!sonarbomb" {
        if hasPermission {
          TogglePluginState();
        }
        return Handled, targets;
      }

      if line.command == "!sonar" {
        if !hasPermission { return Handled, targets; }
        if !isPluginActive { return Handled, targets; }
        targets := SelectTargets(player, line.targetArg, players);
        return Handled, targets;
      }
      return Continue, targets;
    }

    /** Handles a decoy that started: when the plugin is active and thrower
        and projectile check out, places the sonar ring 15 units above the
        decoy, scans the players in order for a visible
        enemy, plays the blink sound to the thrower once if one was found,
        and removes the projectile. */
    method OnDecoyStarted(attacker: Option<Player>, projectile: Option<Projectile>,
                          players: seq<Player>, host: Host)
      returns (report: DecoyReport)
      ensures report.hook == Continue
      ensures report.validated <==>
        && isPluginActive
        && attacker.Some? && attacker.value.valid
        && projectile.Some? && projectile.value.valid && projectile.value.origin.Some?
      ensures !report.validated ==> report == Ignored
      ensures report.validated ==>
        var o := projectile.value.origin.value;
        report.ringAt == Some(Vec(o.x, o.y, o.z + 15.0))
      ensures report.validated ==>
        var scan := Scan(players, attacker.value.team, projectile.value.origin.value,
                         projectile.value.handle, host);
        && report.found == scan.found
        && report.queries == scan.queries
        && report.killed
      ensures report.clientCommands == (if report.found then [PlayBlinkSound] else [])
    {
      report := Ignored;
      if !isPluginActive { return; }
      if attacker.None? || !attacker.value.valid { return; }
      if projectile.None? || !projectile.value.valid || projectile.value.origin.None? { return; }

      var decoyPos := projectile.value.origin.value;
      var team, skip := attacker.value.team, projectile.value.handle;
      var anyTargetFound, queries := ScanPlayers(players, team, decoyPos, skip, host);

      var clientCommands := if anyTargetFound then [PlayBlinkSound] else [];
      report := DecoyReport(Continue, true, Some(Vec(decoyPos.x, decoyPos.y, decoyPos.z + 15.0)), anyTargetFound, queries, clientCommands, true);
    }
  }
}
