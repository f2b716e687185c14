/**
 * `ExpertViewModel`: the save machine behind expert registration and the
 * one-off seeding of the directory with sample professionals. Each
 * launched block is one atomic step.
 */
module ExpertVm {
  import opened Wrappers
  import opened Platform
  import Tables
  import Experts

  datatype ExpertUiState = Idle | Saving | Success | Error(message: string)

  const SAVE_FAILED: string := "Failed to save expert"

  datatype Vm = Vm(ui: ExpertUiState, experts: Experts.ExpertTable)

  ghost predicate Valid(vm: Vm) {
    Experts.Valid(vm.experts)
  }

  function Init(t: Experts.ExpertTable): (vm: Vm)
    requires Experts.Valid(t)
    ensures Valid(vm) && vm.ui == Idle && vm.experts == t
  {
    Vm(Idle, t)
  }

  /** The first statement of the launched `insertExpert` block. */
  function BeginInsert(vm: Vm): (vm': Vm)
    ensures vm'.ui == Saving && vm'.experts == vm.experts
  {
    vm.(ui := Saving)
  }

  /** The rest of the block: the insert, which `fault` says whether it throws. */
  function FinishInsert(vm: Vm, e: Experts.ExpertEntity, fault: Fault): (vm': Vm)
    requires Valid(vm)
    ensures Valid(vm')
    ensures fault.NoFault? ==> vm'.ui == Success && vm'.experts == Experts.InsertExpert(vm.experts, e).0
    ensures fault.Threw? ==> vm'.ui == Error(fault.message.GetOr(SAVE_FAILED)) && vm'.experts == vm.experts
  {
    match fault
    case NoFault => Vm(Success, Experts.InsertExpert(vm.experts, e).0)
    case Threw(m) => vm.(ui := Error(m.GetOr(SAVE_FAILED)))
  }

  /** `insertExpert(expert)`: Saving, then Success or Error. */
  function InsertExpert(vm: Vm, e: Experts.ExpertEntity, fault: Fault): (vm': Vm)
    requires Valid(vm)
    ensures Valid(vm')
  {
    FinishInsert(BeginInsert(vm), e, fault)
  }

  /** `resetState`: Idle from any state; the table is not touched. */
  function ResetState(vm: Vm): (vm': Vm)
    ensures vm'.ui == Idle && vm'.experts == vm.experts
  {
    vm.(ui := Idle)
  }

  /** A successful save stores the entity under a fresh id; a failed one stores nothing. */
  lemma InsertExpertOutcome(vm: Vm, e: Experts.ExpertEntity, fault: Fault)
    requires Valid(vm) && e.id == 0
    ensures var vm' := InsertExpert(vm, e, fault);
            && (fault.NoFault? <==> vm'.ui == Success)
            && (fault.NoFault? ==> |vm'.experts.rows| == |vm.experts.rows| + 1 &&
                                   exists id :: id !in vm.experts.rows && vm'.experts.rows == vm.experts.rows[id := e.(id := id)])
            && (fault.Threw? ==> vm'.experts == vm.experts && vm'.ui.Error?)
  {
    if fault.NoFault? {
      var (t', id) := Experts.InsertExpert(vm.experts, e);
      Experts.InsertCount(vm.experts, e);
      assert id !in vm.experts.rows && t'.rows == vm.experts.rows[id := e.(id := id)];
    }
  }

  // ---------------------------------------------------------------------
  // Sample directory

  /** The six specialty keys, in the order the samples use them. */
  const SAMPLE_CATEGORIES: seq<string> := ["plumbing", "electrical", "hvac", "roofing", "general", "locksmith"]

  /** The descriptive fields of a sample entry. */
  datatype Profile = Profile(
    name: string, phone: string, email: string, description: string,
    availability: string, certifications: string, serviceArea: string)

  /** The descriptive fields of the i-th sample, in list order. */
  function SampleProfile(i: nat): Profile
    requires i < 12
  {
    match i
    case 0 =>
      Profile("Mike's Plumbing Services", "(555) 101-2001", "mike@mikesplumbing.com",
        "Full-service residential plumbing. Specializing in leak detection, pipe repair, and fixture installation.",
        "Mon-Sat 7AM-6PM", "Licensed Master Plumber, EPA Lead-Safe Certified", "Metro area, 30-mile radius")
    case 1 =>
      Profile("Rodriguez Plumbing Co.", "(555) 101-2002", "info@rodriguezplumbing.com",
        "Family-owned plumbing business. Emergency services available 24/7 for burst pipes and sewage backups.",
        "24/7 Emergency Available", "Licensed Plumber, Backflow Prevention Certified", "City and suburbs")
    case 2 =>
      Profile("BrightSpark Electric", "(555) 201-3001", "service@brightspark.com",
        "Commercial and residential electrical work. Panel upgrades, EV charger installation, and smart home wiring.",
        "Mon-Fri 8AM-5PM", "Licensed Electrician, NFPA 70E Certified", "Tri-county area")
    case 3 =>
      Profile("Sarah Chen Electric", "(555) 201-3002", "sarah@chenelectric.com",
        "Specializing in residential rewiring, code compliance inspections, and lighting design.",
        "Mon-Sat 8AM-6PM", "Master Electrician, OSHA 30 Certified", "Metro area")
    case 4 =>
      Profile("Cool Breeze HVAC", "(555) 301-4001", "info@coolbreezehvac.com",
        "Complete HVAC solutions including installation, maintenance, and repair of heating and cooling systems.",
        "Mon-Fri 7AM-7PM, Sat 8AM-2PM", "NATE Certified, EPA 608 Universal", "50-mile radius")
    case 5 =>
      Profile("Texas Climate Control", "(555) 301-4002", "support@texasclimate.com",
        "High-efficiency system installations and ductwork. Free estimates on new system installs.",
        "Mon-Sat 7AM-8PM", "NATE Certified, ACCA Member", "Greater metro area")
    case 6 =>
      Profile("Summit Roofing Pros", "(555) 401-5001", "jobs@summitroofing.com",
        "Roof repair, replacement, and inspection. Experienced with shingle, tile, and metal roofing.",
        "Mon-Fri 7AM-5PM", "GAF Certified Installer, OSHA 10", "City and surrounding counties")
    case 7 =>
      Profile("All Weather Roofing", "(555) 401-5002", "info@allweatherroof.com",
        "Storm damage specialists. Insurance claim assistance and emergency tarping services.",
        "Mon-Sat 6AM-6PM", "CertainTeed SELECT ShingleMaster, Licensed Roofer", "Regional, 40-mile radius")
    case 8 =>
      Profile("Jack of All Trades Handyman", "(555) 501-6001", "jack@jackalltrades.com",
        "General home repairs, furniture assembly, drywall patching, painting, and minor plumbing/electrical.",
        "Mon-Sun 8AM-6PM", "Insured and Bonded", "Local metro area")
    case 9 =>
      Profile("HomeHelper Services", "(555) 501-6002", "hello@homehelper.com",
        "Reliable handyman services for all your home needs. Specializing in kitchen and bathroom updates.",
        "Mon-Fri 9AM-5PM", "Insured, BBB A+ Rated", "City limits")
    case 10 =>
      Profile("QuickKey Locksmith", "(555) 601-7001", "dispatch@quickkey.com",
        "Residential and automotive locksmith. Lock rekeying, smart lock installation, and emergency lockout service.",
        "24/7", "ALOA Certified, Licensed Locksmith", "Metro area, mobile service")
    case _ =>
      Profile("SecureHome Locksmiths", "(555) 601-7002", "info@securehome.com",
        "Home security specialists. Lock upgrades, access control systems, and safe installation.",
        "Mon-Sat 8AM-8PM, Emergency 24/7", "CML Certified Master Locksmith", "Tri-city area")
  }

  /** The specialty, hourly rate, rating and years of the i-th sample, in list order. */
  const SAMPLE_RATES: seq<real> := [85.0, 75.0, 95.0, 90.0, 100.0, 110.0, 80.0, 85.0, 55.0, 60.0, 70.0, 75.0]
  const SAMPLE_RATINGS: seq<real> := [4.8, 4.6, 4.9, 4.7, 4.8, 4.5, 4.7, 4.6, 4.5, 4.4, 4.6, 4.7]
  const SAMPLE_YEARS: seq<int> := [15, 22, 12, 10, 18, 25, 20, 14, 8, 6, 11, 16]

  /**
   * The twelve sample professionals, two per specialty. Each constructor
   * call reads the clock for its own `createdAt`; `stamps` holds those
   * twelve readings, in list order.
   */
  function Sample(i: nat, stamps: seq<int>): (e: Experts.ExpertEntity)
    requires i < 12 && |stamps| == 12
    ensures e.id == 0 && e.createdAt == stamps[i]
    ensures e.category == SAMPLE_CATEGORIES[i / 2]
  {
    var p := SampleProfile(i);
    Experts.ExpertEntity(
      name := p.name, category := SAMPLE_CATEGORIES[i / 2], phone := p.phone, email := p.email,
      hourlyRate := SAMPLE_RATES[i], description := p.description, availability := p.availability,
      rating := SAMPLE_RATINGS[i], yearsExperience := SAMPLE_YEARS[i],
      certifications := p.certifications, serviceArea := p.serviceArea, createdAt := stamps[i])
  }

  /** Every sample rating lies between 4.4 and 4.9. */
  lemma SampleRatingsInRange(i: nat, stamps: seq<int>)
    requires i < 12 && |stamps| == 12
    ensures 4.4 <= Sample(i, stamps).rating <= 4.9
  {
    assert forall j | 0 <= j < |SAMPLE_RATINGS| :: 4.4 <= SAMPLE_RATINGS[j] <= 4.9;
  }

  /**
   * The top-level sample list. It is initialised once per process, so
   * every seed in a process sees the same `stamps`.
   */
  function SampleExperts(stamps: seq<int>): (es: seq<Experts.ExpertEntity>)
    requires |stamps| == 12
    ensures |es| == 12
    ensures forall i | 0 <= i < |es| :: es[i].id == 0 && es[i].createdAt == stamps[i]
    ensures forall i | 0 <= i < |es| :: es[i].category == SAMPLE_CATEGORIES[i / 2]
  {
    seq(12, i requires 0 <= i < 12 => Sample(i, stamps))
  }

  /** Inserts `es` in order, each taking the next AUTOINCREMENT id. */
  function InsertAll(t: Experts.ExpertTable, es: seq<Experts.ExpertEntity>): (t': Experts.ExpertTable)
    requires Experts.Valid(t)
    requires forall i | 0 <= i < |es| :: es[i].id == 0
    ensures Experts.Valid(t')
    ensures t'.lastId == t.lastId + |es|
    decreases |es|
  {
    if es == [] then t
    else InsertAll(Experts.InsertExpert(t, es[0]).0, es[1..])
  }

  /** Inserting in order keeps every row already stored. */
  lemma {:induction false} InsertAllKeeps(t: Experts.ExpertTable, es: seq<Experts.ExpertEntity>)
    requires Experts.Valid(t)
    requires forall i | 0 <= i < |es| :: es[i].id == 0
    ensures forall k | k in t.rows :: k in InsertAll(t, es).rows && InsertAll(t, es).rows[k] == t.rows[k]
    decreases |es|
  {
    if es != [] {
      var t1 := Experts.InsertExpert(t, es[0]).0;
      InsertAllKeeps(t1, es[1..]);
    }
  }

  /** The i-th entity lands under `lastId + 1 + i`. */
  lemma {:induction false} InsertAllSlot(t: Experts.ExpertTable, es: seq<Experts.ExpertEntity>, i: nat)
    requires Experts.Valid(t)
    requires forall j | 0 <= j < |es| :: es[j].id == 0
    requires i < |es|
    ensures var k := t.lastId + 1 + i;
            k in InsertAll(t, es).rows && InsertAll(t, es).rows[k] == es[i].(id := k)
    decreases |es|
  {
    var t1 := Experts.InsertExpert(t, es[0]).0;
    if i == 0 {
      InsertAllKeeps(t1, es[1..]);
    } else {
      InsertAllSlot(t1, es[1..], i - 1);
      assert es[1..][i - 1] == es[i];
    }
  }

  /** Nothing but the old rows and the new ids ends up in the table. */
  lemma {:induction false} InsertAllOnly(t: Experts.ExpertTable, es: seq<Experts.ExpertEntity>)
    requires Experts.Valid(t)
    requires forall i | 0 <= i < |es| :: es[i].id == 0
    ensures forall k | k in InsertAll(t, es).rows :: k in t.rows || t.lastId < k <= t.lastId + |es|
    decreases |es|
  {
    if es != [] {
      var t1 := Experts.InsertExpert(t, es[0]).0;
      InsertAllOnly(t1, es[1..]);
    }
  }

  /** Each sample lands under a fresh id: the table grows by exactly the number of rows inserted. */
  lemma {:induction false} InsertAllCount(t: Experts.ExpertTable, es: seq<Experts.ExpertEntity>)
    requires Experts.Valid(t)
    requires forall i | 0 <= i < |es| :: es[i].id == 0
    ensures |InsertAll(t, es).rows| == |t.rows| + |es|
    decreases |es|
  {
    if es != [] {
      Experts.InsertCount(t, es[0]);
      InsertAllCount(Experts.InsertExpert(t, es[0]).0, es[1..]);
    }
  }

  /** `seedDummyExperts`: the samples are inserted only into an empty table. */
  function Seed(vm: Vm, stamps: seq<int>): (vm': Vm)
    requires Valid(vm) && |stamps| == 12
    ensures Valid(vm')
    ensures vm'.ui == vm.ui
    ensures Experts.GetExpertCount(vm.experts) > 0 ==> vm' == vm
  {
    if Experts.GetExpertCount(vm.experts) > 0 then vm
    else vm.(experts := InsertAll(vm.experts, SampleExperts(stamps)))
  }

  /** Inserting a list of new entities stores each of them under an id of its own. */
  lemma InsertAllStoresEach(t: Experts.ExpertTable, es: seq<Experts.ExpertEntity>)
    requires Experts.Valid(t)
    requires forall i | 0 <= i < |es| :: es[i].id == 0
    ensures var t' := InsertAll(t, es);
            && |t'.rows| == |t.rows| + |es|
            && forall i | 0 <= i < |es| :: exists k :: k in t'.rows && t'.rows[k] == es[i].(id := k)
  {
    InsertAllCount(t, es);
    forall i | 0 <= i < |es| ensures exists k :: k in InsertAll(t, es).rows && InsertAll(t, es).rows[k] == es[i].(id := k) {
      InsertAllSlot(t, es, i);
    }
  }

  /** Seeding an empty table leaves exactly the twelve samples, each under its own id. */
  lemma SeedEmpty(vm: Vm, stamps: seq<int>)
    requires Valid(vm) && |stamps| == 12 && Experts.GetExpertCount(vm.experts) == 0
    ensures var vm' := Seed(vm, stamps);
            && Experts.GetExpertCount(vm'.experts) == 12
            && forall i | 0 <= i < 12 :: exists k :: k in vm'.experts.rows && vm'.experts.rows[k] == SampleExperts(stamps)[i].(id := k)
  {
    InsertAllStoresEach(vm.experts, SampleExperts(stamps));
  }

  /** Seeding twice in a row is seeding once, and never touches the UI state. */
  lemma SeedTwiceIsOnce(vm: Vm, stamps: seq<int>)
    requires Valid(vm) && |stamps| == 12
    ensures Seed(Seed(vm, stamps), stamps) == Seed(vm, stamps)
    ensures Seed(Seed(vm, stamps), stamps).ui == vm.ui
  {
    if Experts.GetExpertCount(vm.experts) == 0 {
      SeedEmpty(vm, stamps);
    }
  }

  /** The six specialty keys are pairwise distinct. */
  lemma SampleCategoriesDistinct()
    ensures forall a, b | 0 <= a < b < |SAMPLE_CATEGORIES| :: SAMPLE_CATEGORIES[a] != SAMPLE_CATEGORIES[b]
  {
  }

  /** The indices whose pair index is `j` are exactly `2j` and `2j + 1`. */
  lemma PairIndices(j: nat, n: nat)
    requires 2 * j + 1 < n
    ensures |set i | 0 <= i < n && i / 2 == j| == 2
  {
    assert (set i | 0 <= i < n && i / 2 == j) == {2 * j, 2 * j + 1};
  }

  /** In twelve category slots filled pair by pair, each specialty key fills exactly two. */
  lemma PairedKeyCount(cats: seq<string>, key: string)
    requires |cats| == 12 && key in SAMPLE_CATEGORIES
    requires forall i | 0 <= i < 12 :: cats[i] == SAMPLE_CATEGORIES[i / 2]
    ensures |set i | 0 <= i < 12 && cats[i] == key| == 2
  {
    var j :| 0 <= j < 6 && SAMPLE_CATEGORIES[j] == key;
    SampleCategoriesDistinct();
    assert (set i | 0 <= i < 12 && cats[i] == key) == set i | 0 <= i < 12 && i / 2 == j;
    PairIndices(j, 12);
  }

  /** Two samples per specialty key, each key with its own pair. */
  lemma TwoSamplesPerCategory(stamps: seq<int>, key: string)
    requires key in SAMPLE_CATEGORIES && |stamps| == 12
    ensures var es := SampleExperts(stamps);
            |set i | 0 <= i < |es| && es[i].category == key| == 2
  {
    var es := SampleExperts(stamps);
    var cats := seq(12, i requires 0 <= i < 12 => es[i].category);
    PairedKeyCount(cats, key);
    assert (set i | 0 <= i < |es| && es[i].category == key) == set i | 0 <= i < 12 && cats[i] == key;
  }
}
