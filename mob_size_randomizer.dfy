/** The plugin object: its configuration state, the size samplers and scaleMob. */
module Plugin {
  import opened Text
  import opened Distributions
  import opened Configs
  import opened Randomness
  import opened Sampling

  datatype Option<T> = None | Some(value: T)

  function GetOr<T>(o: Option<T>, default: T): T {
    match o
    case Some(v) => v
    case None => default
  }

  /** What the plugin can tell apart about an entity: a Player, another LivingEntity
      (a creature), or an entity that is not living. */
  datatype EntityKind = Player | Creature | NonLiving

  /** An entity of the game world; `name` is what getName() returns. */
  datatype Entity = Entity(id: nat, name: string, kind: EntityKind) {
    /** instanceof LivingEntity */
    predicate IsLiving() {
      kind != NonLiving
    }
  }

  /** A constant of the server's CreatureSpawnEvent.SpawnReason enum, by name. */
  datatype SpawnReason = SpawnReason(name: string)

  /** One write of the GENERIC_SCALE attribute's base value. */
  datatype ScaleWrite = ScaleWrite(entity: Entity, scale: real)

  /** The values found under "mobs.<name>" in config.yml; None stands for a missing
      key (or one that does not hold a value of the right kind). */
  datatype MobEntry = MobEntry(min: Option<real>, max: Option<real>, distribution: Option<string>)

  /** The part of config.yml the plugin state is built from: the "mobs" section
      (None when it is absent) and the "excluded-worlds" list. */
  datatype FileConfig = FileConfig(mobs: Option<map<string, MobEntry>>, excludedWorlds: seq<string>)

  /** What scaleMob does with an entity: write nothing, write a fixed scale, or write a
      value sampled from [min, max] with the named distribution. */
  datatype ScalePlan = NoWrite | Fixed(scale: real) | Sample(min: real, max: real, distribution: string)

  /** The configuration key scaleMob looks an entity up by: its name with every space
      replaced by '_', then upper-cased. */
  function NormalizedName(name: string): (key: string)
    ensures |key| == |name|
  {
    Upper(ReplaceAll(name, ' ', '_'))
  }

  /** The MobConfig setMobScaleMap builds from one entry: a missing min or max is 1.0
      and a missing distribution is "uniform". */
  function EntryConfig(e: MobEntry): MobConfig {
    MobConfig(GetOr(e.min, 1.0), GetOr(e.max, 1.0), GetOr(e.distribution, "uniform"))
  }

  /** The table setMobScaleMap stores: one entry per key of the "mobs" section, none
      when the section is absent. */
  function MobTable(section: Option<map<string, MobEntry>>): (table: map<string, MobConfig>)
    ensures table.Keys == if section.Some? then section.value.Keys else {}
  {
    match section
    case None => map[]
    case Some(mobs) => map name | name in mobs :: EntryConfig(mobs[name])
  }

  /** The plan scaleMob follows. Players are left alone. A mob whose normalised name has
      a config is sampled when its max exceeds its min and otherwise kept at 1.0; any
      other mob gets 1.0. The default min and max sizes play no part. */
  function PlanFor(configs: map<string, MobConfig>, entity: Entity): (plan: ScalePlan)
    ensures plan.NoWrite? <==> entity.kind == Player
    ensures plan.Fixed? ==> plan.scale == 1.0
    ensures plan.Sample? ==> plan.min < plan.max
  {
    if entity.kind == Player then NoWrite
    else
      var name := NormalizedName(entity.name);
      if name in configs && configs[name].max > configs[name].min then
        Sample(configs[name].min, configs[name].max, configs[name].distribution)
      else Fixed(1.0)
  }

  /** isExcludedWorld's specification: some listed world equals `world` ignoring case. */
  predicate InWorldList(worlds: seq<string>, world: string) {
    exists i :: 0 <= i < |worlds| && EqualsIgnoreCase(worlds[i], world)
  }

  /** A recorded write agrees with the plan for its entity: the fixed scale, or a value
      within the sampled range, which for "leftexponential" is max itself. */
  predicate WriteAgreesWithPlan(configs: map<string, MobConfig>, w: ScaleWrite) {
    match PlanFor(configs, w.entity)
    case NoWrite => false
    case Fixed(s) => w.scale == s
    case Sample(min, max, d) =>
      min <= w.scale <= max && (FromString(d) == LeftExponential ==> w.scale == max)
  }

  class MobSizeRandomizer {
    var defaultMaxSize: real
    var defaultMinSize: real
    var mobConfigs: map<string, MobConfig>
    var excludedWorlds: seq<string>
    var chunkloadeffected: bool
    var spawnReasonBlocklistEnabled: bool
    var blockedSpawnReasons: set<SpawnReason>
    /** The plugin's random source. */
    const random: Random
    /** u |-> Math.log(1 - u), the only way the samplers use Math.log. */
    const logOneMinus: real -> real
    /** The GENERIC_SCALE writes scaleMob has made, oldest first. */
    var scaleWrites: seq<ScaleWrite>
    /** Every entity scaleMob has been called with, oldest first. */
    ghost var scaleCalls: seq<Entity>

    /** The random source hands out doubles in [0, 1) and logOneMinus behaves as the logarithm of 1 - u. */
    ghost predicate Valid() {
      random.Valid() && LogLaws(logOneMinus)
    }

    /** The field initialisers: default sizes 1.0 and 0.8, no excluded world, the
        blocklist off and empty, chunk loading not scaled. The mob table starts empty
        (the source leaves it null until the configuration is loaded). */
    constructor (random: Random, logOneMinus: real -> real)
      ensures this.random == random && this.logOneMinus == logOneMinus
      ensures defaultMaxSize == 1.0 && defaultMinSize == 0.8
      ensures mobConfigs == map[] && excludedWorlds == []
      ensures !chunkloadeffected && !spawnReasonBlocklistEnabled && blockedSpawnReasons == {}
      ensures scaleWrites == [] && scaleCalls == []
    {
      this.random := random;
      this.logOneMinus := logOneMinus;
      defaultMaxSize := 1.0;
      defaultMinSize := 0.8;
      mobConfigs := map[];
      excludedWorlds := [];
      chunkloadeffected := false;
      spawnReasonBlocklistEnabled := false;
      blockedSpawnReasons := {};
      scaleWrites := [];
      scaleCalls := [];
    }

    // ---- sampling -------------------------------------------------------------

    /** The candidate each sampler computes from the k-th draw of the random source. */
    function UniformAt(min: real, max: real, k: nat): real {
      UniformValue(min, max, random.doubles(k))
    }

    function NormalAt(min: real, max: real, k: nat): real {
      NormalValue(min, max, random.gaussians(k))
    }

    function LeftAt(max: real, k: nat): real {
      LeftValue(max, random.doubles(k), logOneMinus)
    }

    function RightAt(min: real, k: nat): real {
      RightValue(min, random.doubles(k), logOneMinus)
    }

    /** The k-th draw passes the exit test of the normal, left- or right-exponential loop. */
    predicate NormalAccepts(min: real, max: real, k: nat) {
      InRange(NormalAt(min, max, k), min, max)
    }

    predicate LeftAccepts(min: real, max: real, k: nat) {
      InRange(LeftAt(max, k), min, max)
    }

    predicate RightAccepts(min: real, max: real, k: nat) {
      InRange(RightAt(min, k), min, max)
    }

    /** The candidate value that the k-th draw of the random source gives the sampler
        getRandomSize runs for `kind`; for LeftExponential that is the loop as written. */
    function CandidateAt(kind: DistributionType, min: real, max: real, k: nat): real {
      match kind
      case Uniform => UniformAt(min, max, k)
      case Normal => NormalAt(min, max, k)
      case LeftExponential => AsWrittenCandidateAt(max, k)
      case RightExponential => RightAt(min, k)
    }

    /** The k-th draw passes the exit test of the loop for `kind` (the uniform sampler has
        none; its draw passes when it lies in [min, max]). */
    predicate Accepts(kind: DistributionType, min: real, max: real, k: nat) {
      match kind
      case Uniform => InRange(UniformAt(min, max, k), min, max)
      case Normal => NormalAccepts(min, max, k)
      case LeftExponential => AcceptsAsWritten(min, max, k)
      case RightExponential => RightAccepts(min, max, k)
    }

    /** Sampling `kind` from draw `start` on terminates: the uniform sampler always does,
        a rejection loop does when some later draw passes its exit test. */
    ghost predicate HaltsFrom(kind: DistributionType, min: real, max: real, start: nat) {
      match kind
      case Uniform => true
      case Normal => exists k: nat :: start <= k && NormalAccepts(min, max, k)
      case LeftExponential => LeftAsWrittenHaltsFrom(min, max, start)
      case RightExponential => exists k: nat :: start <= k && RightAccepts(min, max, k)
    }

    /** Started at draw `start`, the sampler for `kind` returns the candidate of draw k:
        the uniform sampler uses its single draw, a rejection loop the first accepted
        draw. */
    ghost predicate ReturnsDraw(kind: DistributionType, min: real, max: real, start: nat, k: nat) {
      if kind == Uniform then k == start
      else start <= k && Accepts(kind, min, max, k) &&
           forall j :: start <= j < k ==> !Accepts(kind, min, max, j)
    }

    /** getUniformRandom: one draw, no rejection. */
    method GetUniformRandom(min: real, max: real) returns (value: real)
      modifies random`calls
      ensures random.calls == old(random.calls) + 1
      ensures value == UniformAt(min, max, old(random.calls))
      ensures Valid() && min < max ==> min <= value < max
    {
      var u := random.NextDouble();
      value := min + (max - min) * u;
      if Valid() && min < max {
        UniformInRange(min, max, u);
      }
    }

    /** getNormalRandom: redraw mean + z * stdDev until it lies in [min, max]. */
    method GetNormalRandom(min: real, max: real) returns (value: real)
      requires HaltsFrom(Normal, min, max, random.calls)
      modifies random`calls
      ensures old(random.calls) < random.calls
      ensures value == NormalAt(min, max, random.calls - 1)
      ensures min <= value <= max
      ensures forall j :: old(random.calls) <= j < random.calls - 1 ==> !NormalAccepts(min, max, j)
    {
      var mean := (max + min) / 2.0;
      var stdDev := (max - min) / 6.0;
      ghost var start := random.calls;
      ghost var k: nat :| start <= k && NormalAccepts(min, max, k);
      while true
        invariant start <= random.calls <= k
        invariant forall j :: start <= j < random.calls ==> !NormalAccepts(min, max, j)
        decreases k - random.calls
      {
        var z := random.NextGaussian();
        value := mean + z * stdDev;
        if !(value < min || value > max) {
          break;
        }
      }
    }

    /** Draw `start` on, some draw lets the corrected left-exponential loop stop. */
    ghost predicate LeftHaltsFrom(min: real, max: real, start: nat) {
      exists k: nat :: start <= k && LeftAccepts(min, max, k)
    }

    /** getLeftExponentialRandom with the sign corrected: redraw
        max + log(1 - u) / lambda until it lies in [min, max]. */
    method GetLeftExponentialRandom(min: real, max: real) returns (value: real)
      requires LeftHaltsFrom(min, max, random.calls)
      modifies random`calls
      ensures old(random.calls) < random.calls
      ensures value == LeftAt(max, random.calls - 1)
      ensures min <= value <= max
      ensures forall j :: old(random.calls) <= j < random.calls - 1 ==> !LeftAccepts(min, max, j)
    {
      ghost var start := random.calls;
      ghost var k: nat :| start <= k && LeftAccepts(min, max, k);
      while true
        invariant start <= random.calls <= k
        invariant forall j :: start <= j < random.calls ==> !LeftAccepts(min, max, j)
        decreases k - random.calls
      {
        var u := random.NextDouble();
        value := LeftValue(max, u, logOneMinus);
        if !(value < min || value > max) {
          break;
        }
      }
    }

    /** The candidate of the source's left-exponential loop at the k-th draw. */
    function AsWrittenCandidateAt(max: real, k: nat): real {
      LeftValueAsWritten(max, random.doubles(k), logOneMinus)
    }

    /** The k-th draw passes the source's left-exponential exit test. */
    predicate AcceptsAsWritten(min: real, max: real, k: nat) {
      InRange(AsWrittenCandidateAt(max, k), min, max)
    }

    /** Draw `start` on, some draw lets the as-written left-exponential loop stop. */
    ghost predicate LeftAsWrittenHaltsFrom(min: real, max: real, start: nat) {
      exists k: nat :: start <= k && AcceptsAsWritten(min, max, k)
    }

    /** getLeftExponentialRandom as the source writes it: redraw max - log(1 - u) / lambda
        (lambda = 1.0) until it lies in [min, max]. Every candidate is at least max, so
        what it returns is max itself, drawn from u = 0. */
    method GetLeftExponentialRandomAsWritten(min: real, max: real) returns (value: real)
      requires LeftAsWrittenHaltsFrom(min, max, random.calls)
      modifies random`calls
      ensures old(random.calls) < random.calls
      ensures value == AsWrittenCandidateAt(max, random.calls - 1)
      ensures min <= value <= max
      ensures forall j :: old(random.calls) <= j < random.calls - 1 ==> !AcceptsAsWritten(min, max, j)
      ensures Valid() ==> value == max && random.doubles(random.calls - 1) == 0.0
    {
      ghost var start := random.calls;
      ghost var k: nat :| start <= k && AcceptsAsWritten(min, max, k);
      while true
        invariant start <= random.calls <= k
        invariant forall j :: start <= j < random.calls ==> !AcceptsAsWritten(min, max, j)
        decreases k - random.calls
      {
        var u := random.NextDouble();
        value := LeftValueAsWritten(max, u, logOneMinus);
        if !(value < min || value > max) {
          break;
        }
      }
      if Valid() {
        AsWrittenCandidateAtLeastMax(this, max, random.calls - 1);
      }
    }

    /** getRightExponentialRandom: redraw min + log(1 - u) / (-lambda) until it lies in
        [min, max]. */
    method GetRightExponentialRandom(min: real, max: real) returns (value: real)
      requires HaltsFrom(RightExponential, min, max, random.calls)
      modifies random`calls
      ensures old(random.calls) < random.calls
      ensures value == RightAt(min, random.calls - 1)
      ensures min <= value <= max
      ensures forall j :: old(random.calls) <= j < random.calls - 1 ==> !RightAccepts(min, max, j)
    {
      ghost var start := random.calls;
      ghost var k: nat :| start <= k && RightAccepts(min, max, k);
      while true
        invariant start <= random.calls <= k
        invariant forall j :: start <= j < random.calls ==> !RightAccepts(min, max, j)
        decreases k - random.calls
      {
        var u := random.NextDouble();
        value := RightValue(min, u, logOneMinus);
        if !(value < min || value > max) {
          break;
        }
      }
    }

    /** The switch of getRandomSize: Normal, LeftExponential and RightExponential go to
        their rejection samplers (the left-exponential one as written), Uniform to the
        uniform one. With min < max the result lies in [min, max] whatever the kind, and
        for LeftExponential it is max itself. */
    method SampleDistribution(min: real, max: real, dist: DistributionType) returns (size: real)
      requires HaltsFrom(dist, min, max, random.calls)
      modifies random`calls
      ensures old(random.calls) < random.calls
      ensures ReturnsDraw(dist, min, max, old(random.calls), random.calls - 1)
      ensures size == CandidateAt(dist, min, max, random.calls - 1)
      ensures Valid() && min < max ==> min <= size <= max
      ensures Valid() && dist == LeftExponential ==> size == max && random.doubles(random.calls - 1) == 0.0
    {
      match dist {
        case Normal =>
          size := GetNormalRandom(min, max);
        case LeftExponential =>
          size := GetLeftExponentialRandomAsWritten(min, max);
        case RightExponential =>
          size := GetRightExponentialRandom(min, max);
        case Uniform =>
          size := GetUniformRandom(min, max);
      }
    }

    /** getRandomSize: resolve the distribution name, then sample that kind. */
    method GetRandomSize(min: real, max: real, distributionType: string) returns (size: real)
      requires HaltsFrom(FromString(distributionType), min, max, random.calls)
      modifies random`calls
      ensures old(random.calls) < random.calls
      ensures ReturnsDraw(FromString(distributionType), min, max, old(random.calls), random.calls - 1)
      ensures size == CandidateAt(FromString(distributionType), min, max, random.calls - 1)
      ensures Valid() && min < max ==> min <= size <= max
      ensures Valid() && FromString(distributionType) == LeftExponential ==>
                size == max && random.doubles(random.calls - 1) == 0.0
    {
      var dist := FromString(distributionType);
      size := SampleDistribution(min, max, dist);
    }

    // ---- configuration state ----------------------------------------------------

    /** setMobScaleMap: rebuild the mob table from the "mobs" section, key by key. */
    method SetMobScaleMap(config: FileConfig)
      modifies this`mobConfigs
      ensures mobConfigs == MobTable(config.mobs)
    {
      var table: map<string, MobConfig> := map[];
      if config.mobs.Some? {
        var mobs := config.mobs.value;
        var remaining := mobs.Keys;
        while remaining != {}
          invariant remaining <= mobs.Keys
          invariant table == map name | name in mobs.Keys - remaining :: EntryConfig(mobs[name])
          decreases remaining
        {
          var mobName :| mobName in remaining;
          table := table[mobName := EntryConfig(mobs[mobName])];
          remaining := remaining - {mobName};
        }
      }
      mobConfigs := table;
    }

    /** setExcludedWorlds: the list is read from the configuration again; the argument
        is not used. */
    method SetExcludedWorlds(config: FileConfig, stringList: seq<string>)
      modifies this`excludedWorlds
      ensures excludedWorlds == config.excludedWorlds
    {
      excludedWorlds := config.excludedWorlds;
    }

    method SetDefaultMaxSize(size: real)
      modifies this`defaultMaxSize
      ensures defaultMaxSize == size
    {
      defaultMaxSize := size;
    }

    method SetDefaultMinSize(size: real)
      modifies this`defaultMinSize
      ensures defaultMinSize == size
    {
      defaultMinSize := size;
    }

    method SetSpawnReasonBlocklistEnabled(enabled: bool)
      modifies this`spawnReasonBlocklistEnabled
      ensures spawnReasonBlocklistEnabled == enabled
    {
      spawnReasonBlocklistEnabled := enabled;
    }

    method SetBlockedSpawnReasons(reasons: set<SpawnReason>)
      modifies this`blockedSpawnReasons
      ensures blockedSpawnReasons == reasons
    {
      blockedSpawnReasons := reasons;
    }

    method SetChunkloadeffected(enabled: bool)
      modifies this`chunkloadeffected
      ensures chunkloadeffected == enabled
    {
      chunkloadeffected := enabled;
    }

    /** isExcludedWorld: scan the excluded worlds, stopping at the first that equals
        `world` ignoring case. */
    method IsExcludedWorld(world: string) returns (excluded: bool)
      ensures excluded == InWorldList(excludedWorlds, world)
    {
      for i := 0 to |excludedWorlds|
        invariant forall j :: 0 <= j < i ==> !EqualsIgnoreCase(excludedWorlds[j], world)
      {
        if EqualsIgnoreCase(excludedWorlds[i], world) {
          return true;
        }
      }
      return false;
    }

    // ---- scaling ------------------------------------------------------------------

    /** The plan for `entity` terminates when begun at draw `start`. */
    ghost predicate PlanHalts(plan: ScalePlan, start: nat) {
      plan.Sample? ==> HaltsFrom(FromString(plan.distribution), plan.min, plan.max, start)
    }

    /** Against the draw count `calls0` and the writes `writes0` before it, one scaleMob
        call on `entity` has followed PlanFor: no write and no draw, one write of the
        fixed scale and no draw, or one write of the sampler's result. */
    ghost predicate Performed(entity: Entity, writes0: seq<ScaleWrite>, calls0: nat)
      reads this, random
    {
      match PlanFor(mobConfigs, entity)
      case NoWrite =>
        scaleWrites == writes0 && random.calls == calls0
      case Fixed(s) =>
        scaleWrites == writes0 + [ScaleWrite(entity, s)] && random.calls == calls0
      case Sample(min, max, d) =>
        calls0 < random.calls &&
        ReturnsDraw(FromString(d), min, max, calls0, random.calls - 1) &&
        scaleWrites == writes0 + [ScaleWrite(entity, CandidateAt(FromString(d), min, max, random.calls - 1))]
    }

    /** scaleMob. Because the left-exponential loop returns only max, a mob configured
        with "leftexponential" and max > min gets exactly its max. */
    method ScaleMob(entity: Entity)
      requires entity.IsLiving()
      requires PlanHalts(PlanFor(mobConfigs, entity), random.calls)
      modifies this`scaleWrites, this`scaleCalls, random`calls
      ensures scaleCalls == old(scaleCalls) + [entity]
      ensures Performed(entity, old(scaleWrites), old(random.calls))
      ensures var plan := PlanFor(mobConfigs, entity);
              Valid() && plan.Sample? && FromString(plan.distribution) == LeftExponential ==>
                scaleWrites == old(scaleWrites) + [ScaleWrite(entity, plan.max)]
    {
      scaleCalls := scaleCalls + [entity];
      if entity.kind == Player {
        return;
      }

      var scale := 1.0;
      var distribution := "uniform";
      var max := defaultMaxSize;
      var min := defaultMinSize;
      var entityName := NormalizedName(entity.name);

      if entityName in mobConfigs {
        var mobConfig := mobConfigs[entityName];
        distribution := mobConfig.GetDistribution();
        min := mobConfig.GetMin();
        max := mobConfig.GetMax();
        if max > min {
          scale := GetRandomSize(min, max, distribution);
        }
      } else {
        scale := 1.0;
      }

      scaleWrites := scaleWrites + [ScaleWrite(entity, scale)];
    }
  }

  // ---- properties -----------------------------------------------------------------

  /** Every kind's sampler, started with min < max, returns a value in [min, max]. */
  lemma ReturnedDrawInRange(p: MobSizeRandomizer, kind: DistributionType, min: real, max: real, start: nat, k: nat)
    requires p.Valid() && min < max
    requires p.ReturnsDraw(kind, min, max, start, k)
    ensures min <= p.CandidateAt(kind, min, max, k) <= max
  {
    if kind == Uniform {
      UniformInRange(min, max, p.random.doubles(k));
    }
  }

  /** The uniform sampler just takes the next draw, and the rejection loops stop at the
      first accepted draw, so what a sampler returns is determined by where it starts. */
  lemma ReturnsDrawUnique(p: MobSizeRandomizer, kind: DistributionType, min: real, max: real, start: nat, k1: nat, k2: nat)
    requires p.ReturnsDraw(kind, min, max, start, k1) && p.ReturnsDraw(kind, min, max, start, k2)
    ensures k1 == k2
  {
  }

  /** The right-exponential sampler accepts only values at or above min: the first
      accepted draw lies in [min, max]. */
  lemma RightCandidatesAtLeastMin(p: MobSizeRandomizer, min: real, max: real, k: nat)
    requires p.Valid()
    ensures p.CandidateAt(RightExponential, min, max, k) >= min
  {
    RightValueAtLeastMin(min, p.random.doubles(k), p.logOneMinus);
  }

  /** As written, every left-exponential candidate is at least max, and is max exactly
      for a draw of 0. */
  lemma AsWrittenCandidateAtLeastMax(p: MobSizeRandomizer, max: real, k: nat)
    requires p.Valid()
    ensures p.AsWrittenCandidateAt(max, k) >= max
    ensures p.AsWrittenCandidateAt(max, k) == max <==> p.random.doubles(k) == 0.0
  {
    LeftValueAsWrittenAtLeastMax(max, p.random.doubles(k), p.logOneMinus);
  }

  /** As written, the left-exponential loop accepts a draw exactly when it is 0, and an
      accepted candidate is max itself: what GetLeftExponentialRandomAsWritten returns. */
  lemma AsWrittenAcceptsOnlyMax(p: MobSizeRandomizer, min: real, max: real, k: nat)
    requires p.Valid() && min <= max
    ensures p.AcceptsAsWritten(min, max, k) <==> p.random.doubles(k) == 0.0
    ensures p.AcceptsAsWritten(min, max, k) ==> p.AsWrittenCandidateAt(max, k) == max
  {
    LeftValueAsWrittenAccepted(min, max, p.random.doubles(k), p.logOneMinus);
  }

  /** As written, the left-exponential loop can stop only on a draw of exactly 0. */
  lemma LeftAsWrittenHaltsOnlyOnZeroDraw(p: MobSizeRandomizer, min: real, max: real, start: nat)
    requires p.Valid() && min <= max
    ensures p.LeftAsWrittenHaltsFrom(min, max, start) <==>
              exists k: nat :: start <= k && p.random.doubles(k) == 0.0
  {
    if p.LeftAsWrittenHaltsFrom(min, max, start) {
      var k: nat :| start <= k && p.AcceptsAsWritten(min, max, k);
      AsWrittenAcceptsOnlyMax(p, min, max, k);
    }
    if exists k: nat :: start <= k && p.random.doubles(k) == 0.0 {
      var k: nat :| start <= k && p.random.doubles(k) == 0.0;
      AsWrittenAcceptsOnlyMax(p, min, max, k);
    }
  }

  /** Corrected, the left-exponential loop accepts every draw whose candidate does not fall
      below min, and those candidates are at most max. */
  lemma LeftCandidatesAtMostMax(p: MobSizeRandomizer, min: real, max: real, k: nat)
    requires p.Valid()
    ensures p.LeftAt(max, k) <= max
    ensures p.LeftAccepts(min, max, k) <==> p.LeftAt(max, k) >= min
  {
    LeftValueAtMostMax(max, p.random.doubles(k), p.logOneMinus);
  }

  /** A completed scaleMob call on a creature appended exactly one write, for that
      creature, and the value written agrees with its plan; on a player it wrote nothing
      and drew nothing. */
  lemma PerformedWrite(p: MobSizeRandomizer, entity: Entity, writes0: seq<ScaleWrite>, calls0: nat)
    requires p.Performed(entity, writes0, calls0)
    ensures entity.kind == Player ==> p.scaleWrites == writes0 && p.random.calls == calls0
    ensures entity.kind != Player ==>
              |p.scaleWrites| == |writes0| + 1 && p.scaleWrites[..|writes0|] == writes0 &&
              p.scaleWrites[|writes0|].entity == entity
    ensures entity.kind != Player && p.Valid() ==>
              WriteAgreesWithPlan(p.mobConfigs, p.scaleWrites[|writes0|])
  {
    if entity.kind != Player {
      match PlanFor(p.mobConfigs, entity)
      case Fixed(s) =>
        assert p.scaleWrites[..|writes0|] == writes0;
      case Sample(min, max, d) =>
        if p.Valid() {
          ReturnedDrawInRange(p, FromString(d), min, max, calls0, p.random.calls - 1);
          if FromString(d) == LeftExponential {
            AsWrittenAcceptsOnlyMax(p, min, max, p.random.calls - 1);
          }
        }
        assert p.scaleWrites[..|writes0|] == writes0;
    }
  }

  /** A player is never scaled. */
  lemma PlayersNotScaled(configs: map<string, MobConfig>, entity: Entity)
    requires entity.kind == Player
    ensures PlanFor(configs, entity) == NoWrite
  {
  }

  /** A creature without a config entry gets scale 1.0. */
  lemma UnconfiguredMobGetsOne(configs: map<string, MobConfig>, entity: Entity)
    requires entity.kind != Player && NormalizedName(entity.name) !in configs
    ensures PlanFor(configs, entity) == Fixed(1.0)
  {
  }

  /** A configured creature is sampled from its own range exactly when max > min, and
      otherwise keeps scale 1.0. */
  lemma ConfiguredMobPlan(configs: map<string, MobConfig>, entity: Entity)
    requires entity.kind != Player && NormalizedName(entity.name) in configs
    ensures var c := configs[NormalizedName(entity.name)];
            PlanFor(configs, entity) ==
              if c.max > c.min then Sample(c.min, c.max, c.distribution) else Fixed(1.0)
  {
  }

  /** The lookup key contains no space and no lower-case letter, and normalising twice
      is normalising once. */
  lemma NormalizedNameShape(name: string)
    ensures forall i :: 0 <= i < |name| ==>
              NormalizedName(name)[i] != ' ' && !('a' <= NormalizedName(name)[i] <= 'z')
    ensures NormalizedName(NormalizedName(name)) == NormalizedName(name)
  {
    var n := NormalizedName(name);
    forall i | 0 <= i < |name|
      ensures n[i] != ' ' && !('a' <= n[i] <= 'z')
    {
      if name[i] == ' ' {
        assert ReplaceAll(name, ' ', '_')[i] == '_';
      }
    }
    assert ReplaceAll(n, ' ', '_') == n;
    UpperIdempotent(ReplaceAll(name, ' ', '_'));
  }

  /** A "mobs" key holding a space or a lower-case letter never matches any entity. */
  lemma KeyWithLowerCaseNeverMatches(key: string, entityName: string, i: nat)
    requires i < |key| && (key[i] == ' ' || 'a' <= key[i] <= 'z')
    ensures NormalizedName(entityName) != key
  {
    NormalizedNameShape(entityName);
  }

  /** The config stored under each key of the section fills a missing min or max with
      1.0 and a missing distribution with "uniform"; the values present are kept. */
  lemma MobTableDefaults(section: Option<map<string, MobEntry>>, name: string)
    ensures section.Some? && name in section.value ==>
              var e := section.value[name];
              var c := MobTable(section)[name];
              (e.min.None? ==> c.min == 1.0) && (e.min.Some? ==> c.min == e.min.value) &&
              (e.max.None? ==> c.max == 1.0) && (e.max.Some? ==> c.max == e.max.value) &&
              (e.distribution.None? ==> c.distribution == "uniform") &&
              (e.distribution.Some? ==> c.distribution == e.distribution.value)
  {
  }

  /** Matching a listed world ignoring case is comparing lower-cased names, and an empty
      list excludes nothing. */
  lemma InWorldListIffLower(worlds: seq<string>, world: string)
    ensures InWorldList(worlds, world) <==> exists i :: 0 <= i < |worlds| && Lower(worlds[i]) == Lower(world)
    ensures worlds == [] ==> !InWorldList(worlds, world)
  {
    forall i | 0 <= i < |worlds|
      ensures EqualsIgnoreCase(worlds[i], world) <==> Lower(worlds[i]) == Lower(world)
    {
      EqualsIgnoreCaseIffSameLower(worlds[i], world);
    }
  }
}
