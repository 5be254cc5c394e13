/**
 * `DOA::Host`: the default memory and core count of guests whose settings do not fix them,
 * computed from the host's resources, and the host's operating system. Probing the host
 * (memory, cores, platform string) is not part of this model: the probed values are inputs.
 */
module Host {
  import opened Strings
  import opened Values
  import opened Outcome

  /** `DOA::Guest::MIN_MACHINE_MEM`, in MB. */
  const MinMachineMem := 512

  datatype GuestDefaults = GuestDefaults(mem: int, cores: int)

  /**
   * A machine's `memory` setting read as a number: an Integer, or a string of digits. The
   * pattern also matches a Symbol of digits, which then has no `to_i`.
   */
  function MemoryOf(settings: Value): Result<Option<int>>
  {
    var m :- Index(settings, "memory");
    match m
      case Int(i) => Ok(Some(i))
      case Str(s) => Ok(if AllDigits(s) then Some(ToI(s)) else None)
      case Sym(n) => if AllDigits(n) then Err(NoMethod("to_i")) else Ok(None)
      case Nil => Ok(None)
      case _ => Err(TypeErr("no implicit conversion into String"))
  }

  /**
   * A memory that is read is an Integer setting or the value of a string of digits, and every
   * such setting is read; a symbol of digits raises at `to_i`.
   */
  lemma MemoryRead(settings: Value)
    ensures var r := MemoryOf(settings);
      r.Ok? && r.value.Some? ==> Index(settings, "memory").Ok? && var m := Index(settings, "memory").value;
      m == Int(r.value.value)
      || (m.Str? && AllDigits(m.s) && r.value.value == DigitsValue(m.s))
    ensures Index(settings, "memory").Ok? && Index(settings, "memory").value.Int? ==>
      MemoryOf(settings) == Ok(Some(Index(settings, "memory").value.i))
    ensures Index(settings, "memory").Ok? && Index(settings, "memory").value.Str? && AllDigits(Index(settings, "memory").value.s) ==>
      MemoryOf(settings) == Ok(Some(DigitsValue(Index(settings, "memory").value.s)))
    ensures Index(settings, "memory").Ok? && Index(settings, "memory").value.Sym? && AllDigits(Index(settings, "memory").value.name) ==>
      MemoryOf(settings) == Err(NoMethod("to_i"))
  {
  }

  /** The machines whose memory is preassigned (at least MIN_MACHINE_MEM), counted and summed. */
  datatype Tally = Tally(count: nat, sum: int)

  /** The memory settings of the first `n` machines, as read one by one. */
  function MemoriesOf(machines: seq<Pair>, n: nat): (ms: seq<Result<Option<int>>>)
    requires n <= |machines|
    ensures |ms| == n
  {
    if n == 0 then [] else MemoriesOf(machines, n - 1) + [MemoryOf(machines[n - 1].val)]
  }

  /** The memory read for machine `i`. */
  lemma {:induction false} MemoriesAt(machines: seq<Pair>, n: nat, i: nat)
    requires i < n <= |machines|
    ensures MemoriesOf(machines, n)[i] == MemoryOf(machines[i].val)
    decreases n
  {
    if i < n - 1 {
      MemoriesAt(machines, n - 1, i);
    }
  }

  /** The tally of the first `n` memories read, stopping at the first that cannot be read. */
  function TallyOf(ms: seq<Result<Option<int>>>, n: nat): (r: Result<Tally>)
    requires n <= |ms|
    ensures r.Ok? ==> r.value.count <= n
  {
    if n == 0 then Ok(Tally(0, 0))
    else
      var t :- TallyOf(ms, n - 1);
      var m :- ms[n - 1];
      Ok(Counted(t, m))
  }

  /** The tally of all the machines. */
  function TallyOfMachines(machines: seq<Pair>): Result<Tally>
  {
    TallyOf(MemoriesOf(machines, |machines|), |machines|)
  }

  /** A machine counts exactly when its memory is at least MIN_MACHINE_MEM; the sum is of those memories. */
  function Counted(t: Tally, m: Option<int>): Tally
  {
    if m.Some? && m.value >= MinMachineMem then Tally(t.count + 1, t.sum + m.value) else t
  }

  /** The memory each non-preassigned machine would get, before the bounds are applied. */
  function Candidate(n: nat, t: Tally, totalMem: int, freeMem: int): int
    requires t.count <= n
  {
    if n - t.count == 0 then MinMachineMem
    else Share(freeMem - totalMem / 4 - t.sum, n - t.count)
  }

  /** Ruby's Integer division by a positive count, which floors, as Dafny's does for a positive divisor. */
  function Share(pool: int, k: nat): int
    requires k > 0
  {
    pool / k
  }

  function Min(a: int, b: int): int { if a <= b then a else b }

  function Max(a: int, b: int): int { if a >= b then a else b }

  /** `(0.75 * cores).ceil` for 3 cores or more; 1 core for 1 or 2. */
  function DefaultCores(cores: int): (r: int)
    ensures cores == 1 || cores == 2 ==> r == 1
    ensures cores != 1 && cores != 2 ==> 4 * r >= 3 * cores && 4 * r < 3 * cores + 4
  {
    if cores == 1 || cores == 2 then 1 else (3 * cores + 3) / 4
  }

  /** `calc_guest_defaults(machines)` with the host's total and free memory and its core count. */
  function GuestDefaultsOf(machines: seq<Pair>, totalMem: int, freeMem: int, cores: int): (r: Result<GuestDefaults>)
    ensures r.Ok? ==> r.value.mem <= totalMem / 4
    ensures r.Ok? ==> r.value.mem == totalMem / 4 || r.value.mem >= MinMachineMem
  {
    var t :- TallyOfMachines(machines);
    Ok(DefaultsOfTally(|machines|, t, totalMem, freeMem, cores))
  }

  /** The defaults once the preassigned machines are tallied. */
  function DefaultsOfTally(n: nat, t: Tally, totalMem: int, freeMem: int, cores: int): GuestDefaults
    requires t.count <= n
  {
    GuestDefaults(Min(totalMem / 4, Max(Candidate(n, t, totalMem, freeMem), MinMachineMem)), DefaultCores(cores))
  }

  /** When every machine is preassigned the candidate is MIN_MACHINE_MEM. */
  lemma AllPreassigned(machines: seq<Pair>, totalMem: int, freeMem: int, cores: int)
    requires TallyOfMachines(machines).Ok? && TallyOfMachines(machines).value.count == |machines|
    ensures GuestDefaultsOf(machines, totalMem, freeMem, cores) == Ok(GuestDefaults(Min(totalMem / 4, MinMachineMem), DefaultCores(cores)))
  {
  }

  /**
   * Otherwise the free memory, less a quarter of the total and the preassigned memory, is
   * shared out among the other machines (floor division), and at least 512 MB go to each.
   */
  lemma SharedAmongOthers(machines: seq<Pair>, totalMem: int, freeMem: int, cores: int)
    requires TallyOfMachines(machines).Ok? && TallyOfMachines(machines).value.count < |machines|
    ensures var t := TallyOfMachines(machines).value;
      GuestDefaultsOf(machines, totalMem, freeMem, cores)
        == Ok(GuestDefaults(Min(totalMem / 4, Max(Share(freeMem - totalMem / 4 - t.sum, |machines| - t.count), MinMachineMem)),
                            DefaultCores(cores)))
  {
  }

  /** The loop of `calc_guest_defaults`: the preassigned machines counted, and their memory summed. */
  method TallyMachines(machines: seq<Pair>) returns (r: Result<Tally>)
    ensures r == TallyOfMachines(machines)
  {
    ghost var ms := MemoriesOf(machines, |machines|);
    var nPreassigned: nat := 0;
    var preassignedMem := 0;
    var i := 0;
    while i < |machines|
      invariant 0 <= i <= |machines|
      invariant TallyOf(ms, i) == Ok(Tally(nPreassigned, preassignedMem))
      decreases |machines| - i
    {
      var m := MemoryOf(machines[i].val);
      MemoriesAt(machines, |machines|, i);
      if m.Err? {
        ErrorStops(ms, i + 1, |machines|, m.error);
        return Err(m.error);
      }
      TallyStep(ms, i, Tally(nPreassigned, preassignedMem));
      if m.value.Some? && m.value.value >= MinMachineMem {
        preassignedMem := preassignedMem + m.value.value;
        nPreassigned := nPreassigned + 1;
      }
      i := i + 1;
    }
    r := Ok(Tally(nPreassigned, preassignedMem));
  }

  /** `calc_guest_defaults`: the memory left for the machines that do not fix theirs, and the default core count. */
  method CalcGuestDefaults(machines: seq<Pair>, totalMem: int, freeMem: int, cores: int) returns (r: Result<GuestDefaults>)
    ensures r == GuestDefaultsOf(machines, totalMem, freeMem, cores)
  {
    var t :- TallyMachines(machines);
    var defaultMem := if |machines| - t.count == 0 then MinMachineMem
      else Share(freeMem - totalMem / 4 - t.sum, |machines| - t.count);
    assert defaultMem == Candidate(|machines|, t, totalMem, freeMem);
    r := Ok(GuestDefaults(Min(totalMem / 4, if defaultMem < MinMachineMem then MinMachineMem else defaultMem), DefaultCores(cores)));
  }

  /** One more memory read: it is counted in, or left out, as `Counted` says. */
  lemma TallyStep(ms: seq<Result<Option<int>>>, i: nat, t: Tally)
    requires i < |ms| && TallyOf(ms, i) == Ok(t) && ms[i].Ok?
    ensures TallyOf(ms, i + 1) == Ok(Counted(t, ms[i].value))
  {
  }

  /** A machine whose memory cannot be read stops the computation with that error. */
  lemma {:induction false} ErrorStops(ms: seq<Result<Option<int>>>, k: nat, n: nat, e: Error)
    requires 0 < k <= n <= |ms| && TallyOf(ms, k) == Err(e)
    ensures TallyOf(ms, n) == Err(e)
    decreases n - k
  {
    if k < n {
      ErrorStops(ms, k, n - 1, e);
    }
  }

  // ----- the host's operating system -----

  /** `windows?`: the platform string names a Windows Ruby build. */
  predicate IsWindows(platform: string)
  {
    Contains(platform, "cygwin") || Contains(platform, "mswin") || Contains(platform, "mingw")
    || Contains(platform, "bccwin") || Contains(platform, "wince") || Contains(platform, "emx")
  }

  predicate IsMac(platform: string) { Contains(platform, "darwin") }

  predicate IsUnix(platform: string) { !IsWindows(platform) }

  predicate IsLinux(platform: string) { IsUnix(platform) && !IsMac(platform) }

  /** `get_os`: the cached OS, else Windows, Mac, Linux, Unix in that order. */
  function GetOs(cached: Option<string>, platform: string): (r: Option<string>)
    ensures cached.Some? ==> r == cached
    ensures cached.None? ==> r.Some?
    ensures cached.None? ==> (r == Some("Windows") <==> IsWindows(platform))
    ensures cached.None? ==> (r == Some("Mac") <==> !IsWindows(platform) && IsMac(platform))
    ensures cached.None? ==> (r == Some("Linux") <==> !IsWindows(platform) && !IsMac(platform))
  {
    if cached.Some? then cached
    else if IsWindows(platform) then Some("Windows")
    else if IsMac(platform) then Some("Mac")
    else if IsLinux(platform) then Some("Linux")
    else if IsUnix(platform) then Some("Unix")
    else None
  }

  /** Without a cached value, 'Unix' is never the answer: every non-Windows, non-Mac host is Linux. */
  lemma UnixUnreachable(platform: string)
    ensures GetOs(None, platform) != Some("Unix")
  {
  }
}
