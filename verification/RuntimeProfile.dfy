/** The resource contract of one emulator (internal/runtimeprofile/profile.go): parsing with defaults,
    derived guest values, limits, and the map form that parses back. */
module RuntimeProfile {
  import opened Domain
  import opened Rows

  type int64 = n: int | -0x8000_0000_0000_0000 <= n < 0x8000_0000_0000_0000

  datatype Profile = Profile(
    cpu: real, memory: int64, guestCpu: int64, guestMemory: int64, dataDisk: int64, imageDisk: int64,
    width: int64, height: int64, density: int64, vmHeap: int64, graphics: string)

  /** A value of the decoded map: a number, a text with the number it reads as, or anything else. */
  datatype Value = Number(number: real) | Text(text: string, parses: Option<real>) | Other

  const DEFAULT := Profile(4.0, 5120, 4, 4096, 4096, 0, 1080, 2400, 420, 512, "auto")

  function LowerChar(c: char): (result: char) {
    if 'A' <= c <= 'Z' then (c as int + 32) as char else c
  }

  function ToLower(s: string): (result: string) {
    seq(|s|, i requires 0 <= i < |s| => LowerChar(s[i]))
  }

  // ---- Fields ----

  /** The first of the keys that is present decides; None when it is not numeric. */
  function Numeric(values: map<string, Value>, fallback: real, keys: seq<string>): (result: Option<real>) {
    if keys == [] then Some(fallback)
    else if keys[0] !in values then Numeric(values, fallback, keys[1..])
    else match values[keys[0]]
      case Number(x) => Some(x)
      case Text(_, parses) => parses
      case Other => None
  }

  function Whole(x: real): (result: Option<int64>) {
    if x.Floor as real != x then None
    else if x.Floor < -0x8000_0000_0000_0000 || x.Floor >= 0x8000_0000_0000_0000 then None
    else Some(x.Floor)
  }

  function WholeNumber(values: map<string, Value>, fallback: int64, keys: seq<string>): (result: Option<int64>) {
    var x := Numeric(values, fallback as real, keys);
    if x == None then None else Whole(x.value)
  }

  predicate HasAny(values: map<string, Value>, keys: seq<string>) {
    exists i :: 0 <= i < |keys| && keys[i] in values
  }

  method FloatValue(values: map<string, Value>, fallback: real, keys: seq<string>) returns (x: Option<real>)
    ensures x == Numeric(values, fallback, keys)
  {
    var i := 0;
    while i < |keys|
      invariant 0 <= i <= |keys|
      invariant Numeric(values, fallback, keys) == Numeric(values, fallback, keys[i..])
    {
      if keys[i] in values {
        match values[keys[i]]
        case Number(number) => return Some(number);
        case Text(_, parses) => return parses;
        case Other => return None;
      }
      i := i + 1;
    }
    x := Some(fallback);
  }

  // ---- Derived guest values and limits ----

  function Min(a: int, b: int): (result: int) {
    if a <= b then a else b
  }

  function Max(a: int, b: int): (result: int) {
    if a >= b then a else b
  }

  function GuestCpu(cpu: real): (result: int) {
    Max(1, Min(DEFAULT.guestCpu, cpu.Floor))
  }

  function GuestMemory(memory: int): (result: int) {
    Min(Max(1536, Min(DEFAULT.guestMemory, memory - 1024)), memory - 512)
  }

  predicate Valid(p: Profile) {
    && 1.0 <= p.cpu <= 64.0 && 2048 <= p.memory <= 262144
    && 1 <= p.guestCpu <= 32 && 1536 <= p.guestMemory <= p.memory - 512
    && 2048 <= p.dataDisk <= 1048576 && 0 <= p.imageDisk
    && 320 <= p.width <= 4320 && 480 <= p.height <= 7680
    && 120 <= p.density <= 960 && 128 <= p.vmHeap <= p.guestMemory / 2
    && p.graphics in {"auto", "host", "software"}
  }

  // ---- Parsing ----

  /** The integer fields in the order they are read: the field's default and the keys it answers to. */
  const FIELDS: seq<(int64, seq<string>)> := [
    (DEFAULT.memory, ["container_memory_mb", "memory_mb"]),
    (DEFAULT.guestMemory, ["guest_memory_mb"]),
    (DEFAULT.dataDisk, ["data_disk_mb"]),
    (DEFAULT.imageDisk, ["image_disk_mb"]),
    (DEFAULT.vmHeap, ["vm_heap_mb"]),
    (DEFAULT.guestCpu, ["guest_cpu_cores"]),
    (DEFAULT.width, ["width"]),
    (DEFAULT.height, ["height"]),
    (DEFAULT.density, ["density_dpi"])]

  function Field(values: map<string, Value>, i: nat): (result: Option<int64>)
    requires i < |FIELDS|
  {
    WholeNumber(values, FIELDS[i].0, FIELDS[i].1)
  }

  function Graphics(values: map<string, Value>): (result: Option<string>) {
    if "graphics" !in values then Some(DEFAULT.graphics)
    else if values["graphics"].Text? then Some(ToLower(TrimSpace(values["graphics"].text)))
    else None
  }

  /** All that is read, before it is checked against the limits. */
  datatype Draft = Draft(
    cpu: real, memory: int, guestCpu: int, guestMemory: int, dataDisk: int64, imageDisk: int64,
    width: int64, height: int64, density: int64, vmHeap: int64, graphics: string)

  function Read(values: map<string, Value>): (result: Option<Draft>) {
    var cpu := Numeric(values, DEFAULT.cpu, ["container_cpu_cores", "cpu"]);
    var graphics := Graphics(values);
    if cpu == None || graphics == None || exists i :: 0 <= i < |FIELDS| && Field(values, i) == None then None
    else
      var memory := Field(values, 0).value;
      Some(Draft(cpu.value, memory,
                 if HasAny(values, ["guest_cpu_cores"]) then Field(values, 5).value else GuestCpu(cpu.value),
                 if HasAny(values, ["guest_memory_mb"]) then Field(values, 1).value else GuestMemory(memory),
                 Field(values, 2).value, Field(values, 3).value, Field(values, 6).value, Field(values, 7).value,
                 Field(values, 8).value, Field(values, 4).value, graphics.value))
  }

  predicate InInt64(n: int) {
    -0x8000_0000_0000_0000 <= n < 0x8000_0000_0000_0000
  }

  function Checked(x: Draft): (result: Option<Profile>) {
    if !InInt64(x.memory) || !InInt64(x.guestCpu) || !InInt64(x.guestMemory) then None
    else
      var p := Profile(x.cpu, x.memory, x.guestCpu, x.guestMemory, x.dataDisk, x.imageDisk,
                       x.width, x.height, x.density, x.vmHeap, x.graphics);
      if Valid(p) then Some(p) else None
  }

  /** What a map parses to; a missing map is the default. */
  function Parsed(values: Option<map<string, Value>>): (result: Option<Profile>) {
    if values == None then Some(DEFAULT)
    else
      var x := Read(values.value);
      if x == None then None else Checked(x.value)
  }

  /** Reads the integer fields one after the other, each over its default. */
  method ReadFields(values: map<string, Value>, targets: array<int>) returns (ok: bool)
    requires targets.Length == |FIELDS|
    modifies targets
    ensures ok <==> forall i :: 0 <= i < |FIELDS| ==> Field(values, i).Some?
    ensures ok ==> forall i :: 0 <= i < |FIELDS| ==> Field(values, i) == Some(targets[i])
  {
    var i := 0;
    while i < |FIELDS|
      invariant 0 <= i <= |FIELDS|
      invariant forall j :: 0 <= j < i ==> Field(values, j) == Some(targets[j])
    {
      var (fallback, keys) := FIELDS[i];
      var x := FloatValue(values, fallback as real, keys);
      if x == None || Whole(x.value) == None {
        assert Field(values, i) == None;
        return false;
      }
      targets[i] := Whole(x.value).value;
      i := i + 1;
    }
    ok := true;
  }

  method Parse(values: Option<map<string, Value>>) returns (p: Option<Profile>)
    ensures p == Parsed(values)
  {
    if values == None {
      return Some(DEFAULT);
    }
    var v := values.value;
    var cpu := FloatValue(v, DEFAULT.cpu, ["container_cpu_cores", "cpu"]);
    var targets := new int[|FIELDS|];
    var ok := ReadFields(v, targets);
    if cpu == None || !ok {
      return None;
    }
    Derive(v, cpu.value, targets);
    var graphics := DEFAULT.graphics;
    if "graphics" in v {
      if !v["graphics"].Text? {
        return None;
      }
      graphics := ToLower(TrimSpace(v["graphics"].text));
    }
    p := Checked(Draft(cpu.value, targets[0], targets[5], targets[1], targets[2], targets[3],
                       targets[6], targets[7], targets[8], targets[4], graphics));
  }

  /** Guest values nobody asked for follow from the container. */
  method Derive(values: map<string, Value>, cpu: real, targets: array<int>)
    requires targets.Length == |FIELDS|
    requires Field(values, 1) == Some(targets[1]) && Field(values, 5) == Some(targets[5])
    modifies targets
    ensures forall i :: 0 <= i < |FIELDS| && i != 1 && i != 5 ==> targets[i] == old(targets[i])
    ensures targets[5] == if HasAny(values, ["guest_cpu_cores"]) then old(targets[5]) else GuestCpu(cpu)
    ensures targets[1] == if HasAny(values, ["guest_memory_mb"]) then old(targets[1]) else GuestMemory(targets[0])
  {
    if !HasAny(values, ["guest_cpu_cores"]) {
      FieldDefaults(values, 5);
      targets[5] := Max(1, Min(targets[5], cpu.Floor));
    }
    if !HasAny(values, ["guest_memory_mb"]) {
      FieldDefaults(values, 1);
      targets[1] := Max(1536, Min(targets[1], targets[0] - 1024));
      if targets[1] > targets[0] - 512 {
        targets[1] := targets[0] - 512;
      }
    }
  }

  function Map(p: Profile): (result: map<string, Value>) {
    map[
      "container_cpu_cores" := Number(p.cpu), "container_memory_mb" := Number(p.memory as real),
      "guest_cpu_cores" := Number(p.guestCpu as real), "guest_memory_mb" := Number(p.guestMemory as real),
      "data_disk_mb" := Number(p.dataDisk as real), "image_disk_mb" := Number(p.imageDisk as real),
      "width" := Number(p.width as real), "height" := Number(p.height as real),
      "density_dpi" := Number(p.density as real), "vm_heap_mb" := Number(p.vmHeap as real),
      "graphics" := Text(p.graphics, None)]
  }

  // ---- Laws ----

  /** Whatever parses is within the limits. */
  lemma ParsedIsValid(values: Option<map<string, Value>>)
    ensures Parsed(values).Some? ==>
              var p := Parsed(values).value;
              && Valid(p)
              && 1.0 <= p.cpu <= 64.0 && 2048 <= p.memory <= 262144
              && 1 <= p.guestCpu <= 32 && 1536 <= p.guestMemory <= p.memory - 512
              && 2048 <= p.dataDisk <= 1048576 && 0 <= p.imageDisk
              && 320 <= p.width <= 4320 && 480 <= p.height <= 7680
              && 120 <= p.density <= 960 && 128 <= p.vmHeap && 2 * p.vmHeap <= p.guestMemory
              && p.graphics in {"auto", "host", "software"}
  {
  }

  /** The two container keys of before the rename read as the new ones do: in a map that has neither new key, renaming
      them changes nothing. */
  lemma OldKeysStillParse(values: map<string, Value>, cpu: Value, memory: Value)
    requires forall k :: k in {"container_cpu_cores", "container_memory_mb", "cpu", "memory_mb"} ==> k !in values
    ensures Parsed(Some(values["cpu" := cpu]["memory_mb" := memory]))
            == Parsed(Some(values["container_cpu_cores" := cpu]["container_memory_mb" := memory]))
  {
    var a, b := values["cpu" := cpu]["memory_mb" := memory],
        values["container_cpu_cores" := cpu]["container_memory_mb" := memory];
    FirstPresent(a, DEFAULT.cpu, "container_cpu_cores", "cpu");
    FirstPresent(b, DEFAULT.cpu, "container_cpu_cores", "cpu");
    FirstPresent(a, DEFAULT.memory as real, "container_memory_mb", "memory_mb");
    FirstPresent(b, DEFAULT.memory as real, "container_memory_mb", "memory_mb");
    forall i | 1 <= i < |FIELDS|
      ensures Field(a, i) == Field(b, i)
    {
      SameField(a, b, i);
    }
    assert Field(a, 0) == Field(b, 0);
    SameReading(a, b);
  }

  lemma SameField(a: map<string, Value>, b: map<string, Value>, i: nat)
    requires 1 <= i < |FIELDS|
    requires forall k :: k !in {"container_cpu_cores", "container_memory_mb", "cpu", "memory_mb"} ==>
                           (k in a <==> k in b) && (k in a ==> a[k] == b[k])
    ensures Field(a, i) == Field(b, i)
  {
    var key := FIELDS[i].1[0];
    assert FIELDS[i].1 == [key];
    OnlyPresent(a, FIELDS[i].0 as real, key);
    OnlyPresent(b, FIELDS[i].0 as real, key);
    assert key !in {"container_cpu_cores", "container_memory_mb", "cpu", "memory_mb"};
  }

  /** Two maps whose fields read alike parse alike. */
  lemma SameReading(a: map<string, Value>, b: map<string, Value>)
    requires Numeric(a, DEFAULT.cpu, ["container_cpu_cores", "cpu"])
             == Numeric(b, DEFAULT.cpu, ["container_cpu_cores", "cpu"])
    requires forall i :: 0 <= i < |FIELDS| ==> Field(a, i) == Field(b, i)
    requires forall k :: k in {"graphics", "guest_cpu_cores", "guest_memory_mb"} ==>
                           (k in a <==> k in b) && (k in a ==> a[k] == b[k])
    ensures Parsed(Some(a)) == Parsed(Some(b))
  {
    One(a, "guest_cpu_cores");
    One(b, "guest_cpu_cores");
    One(a, "guest_memory_mb");
    One(b, "guest_memory_mb");
    assert Graphics(a) == Graphics(b);
    assert Read(a) == Read(b);
  }

  function Reading(x: Value): (result: Option<real>) {
    match x
    case Number(number) => Some(number)
    case Text(_, parses) => parses
    case Other => None
  }

  lemma FirstPresent(values: map<string, Value>, fallback: real, first: string, second: string)
    ensures Numeric(values, fallback, [first, second]) ==
            if first in values then Reading(values[first])
            else if second in values then Reading(values[second]) else Some(fallback)
  {
    OnlyPresent(values, fallback, second);
    assert [first, second][1..] == [second];
  }

  lemma OnlyPresent(values: map<string, Value>, fallback: real, key: string)
    ensures Numeric(values, fallback, [key]) == if key in values then Reading(values[key]) else Some(fallback)
  {
    assert [key][1..] == [];
  }

  lemma PlainGraphics(g: string)
    requires g in {"auto", "host", "software"}
    ensures ToLower(TrimSpace(g)) == g
  {
  }

  lemma FieldReads(values: map<string, Value>, i: nat, n: int64)
    requires i < |FIELDS| && FIELDS[i].1[0] in values && values[FIELDS[i].1[0]] == Number(n as real)
    ensures Field(values, i) == Some(n)
  {
  }

  lemma One(values: map<string, Value>, key: string)
    ensures HasAny(values, [key]) <==> key in values
  {
    assert [key][0] == key;
  }

  /** A field none of whose keys is present keeps its default. */
  lemma FieldDefaults(values: map<string, Value>, i: nat)
    requires i < |FIELDS| && !HasAny(values, FIELDS[i].1)
    ensures Field(values, i) == Some(FIELDS[i].0)
  {
    NumericDefaults(values, FIELDS[i].0 as real, FIELDS[i].1);
  }

  lemma {:induction false} NumericDefaults(values: map<string, Value>, fallback: real, keys: seq<string>)
    requires !HasAny(values, keys)
    ensures Numeric(values, fallback, keys) == Some(fallback)
  {
    if keys == [] {
    } else {
      forall i | 0 <= i < |keys[1..]|
        ensures keys[1..][i] !in values
      {
        assert keys[i + 1] !in values;
      }
      assert keys[0] !in values;
      NumericDefaults(values, fallback, keys[1..]);
    }
  }

  lemma FieldsRead(p: Profile)
    ensures var v := Map(p);
            && Field(v, 0) == Some(p.memory) && Field(v, 1) == Some(p.guestMemory) && Field(v, 2) == Some(p.dataDisk)
            && Field(v, 3) == Some(p.imageDisk) && Field(v, 4) == Some(p.vmHeap) && Field(v, 5) == Some(p.guestCpu)
            && Field(v, 6) == Some(p.width) && Field(v, 7) == Some(p.height) && Field(v, 8) == Some(p.density)
  {
    var v := Map(p);
    FieldReads(v, 0, p.memory);
    FieldReads(v, 1, p.guestMemory);
    FieldReads(v, 2, p.dataDisk);
    FieldReads(v, 3, p.imageDisk);
    FieldReads(v, 4, p.vmHeap);
    FieldReads(v, 5, p.guestCpu);
    FieldReads(v, 6, p.width);
    FieldReads(v, 7, p.height);
    FieldReads(v, 8, p.density);
  }

  function DraftOf(p: Profile): (result: Draft) {
    Draft(p.cpu, p.memory, p.guestCpu, p.guestMemory, p.dataDisk, p.imageDisk,
          p.width, p.height, p.density, p.vmHeap, p.graphics)
  }

  lemma MapReadsBack(p: Profile)
    requires Valid(p)
    ensures Read(Map(p)) == Some(DraftOf(p))
  {
    FieldsRead(p);
    PlainGraphics(p.graphics);
    One(Map(p), "guest_cpu_cores");
    One(Map(p), "guest_memory_mb");
  }

  /** A valid profile survives its map form. */
  lemma RoundTrip(p: Profile)
    requires Valid(p)
    ensures Parsed(Some(Map(p))) == Some(p)
  {
    MapReadsBack(p);
    assert Checked(DraftOf(p)) == Some(p);
  }

  /** Parsing what was parsed changes nothing. */
  lemma ParsingIsStable(values: Option<map<string, Value>>)
    requires Parsed(values).Some?
    ensures Parsed(Some(Map(Parsed(values).value))) == Parsed(values)
  {
    ParsedIsValid(values);
    RoundTrip(Parsed(values).value);
  }

  /** The guest values derived from a container within its limits satisfy every bound they are coupled to. */
  lemma DerivedGuestFits(cpu: real, memory: int64)
    requires 1.0 <= cpu <= 64.0 && 2048 <= memory <= 262144
    ensures 1 <= GuestCpu(cpu) <= 4
    ensures 1536 <= GuestMemory(memory) <= memory - 512
    ensures DEFAULT.vmHeap <= GuestMemory(memory) / 2
    ensures GuestCpu(cpu) as real <= cpu && (GuestCpu(cpu) < 4 ==> cpu < GuestCpu(cpu) as real + 1.0)
    ensures 2560 <= memory <= 5120 ==> GuestMemory(memory) == memory - 1024
    ensures memory < 2560 ==> GuestMemory(memory) == 1536
    ensures memory > 5120 ==> GuestMemory(memory) == 4096
  {
  }

  /** Giving the container size alone parses exactly when that size is within its limits. */
  lemma ContainerAloneParsesExactlyWhen(cpu: real, memory: int64)
    ensures Parsed(Some(map["container_cpu_cores" := Number(cpu),
                            "container_memory_mb" := Number(memory as real)])).Some?
            <==> 1.0 <= cpu <= 64.0 && 2048 <= memory <= 262144
  {
    var v := map["container_cpu_cores" := Number(cpu), "container_memory_mb" := Number(memory as real)];
    FieldReads(v, 0, memory);
    forall i | 1 <= i < |FIELDS|
      ensures Field(v, i) == Some(FIELDS[i].0)
    {
      FieldDefaults(v, i);
    }
    One(v, "guest_cpu_cores");
    One(v, "guest_memory_mb");
    if 1.0 <= cpu <= 64.0 && 2048 <= memory <= 262144 {
      DerivedGuestFits(cpu, memory);
    }
  }
}
