/** The file checkpoint store (`src/checkpoint.rs`): what one update does to the file, and which
    cursors share a key. */
module Checkpoint {
  import opened Messages

  type Cursors = map<string, string>

  /** A save or a clear of one cursor key. */
  datatype Change = Put(key: string, value: string) | Remove(key: string)

  /** What a path holds: nothing, a parseable cursor map, or bytes that do not parse. */
  datatype Content = Absent | Parsed(cursors: Cursors) | Garbage

  function Apply(m: Cursors, change: Change): (r: Cursors) {
    match change
    case Put(key, value) => m[key := value]
    case Remove(key) => m - {key}
  }

  function ApplyAll(m: Cursors, changes: seq<Change>): (r: Cursors)
    decreases |changes|
  {
    if changes == [] then m
    else Apply(ApplyAll(m, changes[..|changes| - 1]), changes[|changes| - 1])
  }

  /** `read_map`: a missing file is the empty map, an unparseable one an error. */
  function ReadMap(content: Content): (r: Option<Cursors>) {
    match content
    case Absent => Some(map[])
    case Parsed(cursors) => Some(cursors)
    case Garbage => None
  }

  function Lookup(m: Cursors, key: string): (r: Option<string>) {
    if key in m then Some(m[key]) else None
  }

  function ChangedValue(change: Change): (r: Option<string>) {
    match change
    case Put(_, value) => Some(value)
    case Remove(_) => None
  }

  /** Changes to other keys never change what a load of this key returns. */
  lemma {:induction false} OtherKeysUntouched(m: Cursors, changes: seq<Change>, key: string)
    requires forall i :: 0 <= i < |changes| ==> changes[i].key != key
    ensures Lookup(ApplyAll(m, changes), key) == Lookup(m, key)
    decreases |changes|
  {
    if changes != [] {
      OtherKeysUntouched(m, changes[..|changes| - 1], key);
    }
  }

  /** The last change to a key decides what a load of that key returns. */
  lemma {:induction false} LastChangeWins(m: Cursors, changes: seq<Change>, k: nat)
    requires k < |changes| && forall i :: k < i < |changes| ==> changes[i].key != changes[k].key
    ensures Lookup(ApplyAll(m, changes), changes[k].key) == ChangedValue(changes[k])
    decreases |changes|
  {
    var n := |changes| - 1;
    if k < n {
      LastChangeWins(m, changes[..n], k);
    }
  }

  // ---------------------------------------------------------------- keys

  predicate IdentChar(c: char) {
    'a' <= c <= 'z' || 'A' <= c <= 'Z' || '0' <= c <= '9' || c == '_'
  }

  function SanitizeIdent(source: string): (r: string)
    ensures |r| == |source|
    ensures forall i :: 0 <= i < |r| ==>
              r[i] == if 'a' <= source[i] <= 'z' || 'A' <= source[i] <= 'Z' || '0' <= source[i] <= '9' || source[i] == '_' then source[i] else '_'
  {
    seq(|source|, i requires 0 <= i < |source| => if IdentChar(source[i]) then source[i] else '_')
  }

  function CheckpointKey(source: string, cursorId: string): (r: string) {
    SanitizeIdent(source) + ":" + cursorId
  }

  function FirstColon(k: string): (n: nat)
    ensures n <= |k|
  {
    if k == [] || k[0] == ':' then 0 else 1 + FirstColon(k[1..])
  }

  lemma {:induction false} ColonEndsSource(ident: string, rest: string)
    requires forall i :: 0 <= i < |ident| ==> IdentChar(ident[i])
    ensures FirstColon(ident + ":" + rest) == |ident|
  {
    if ident != [] {
      assert (ident + ":" + rest)[1..] == ident[1..] + ":" + rest;
      ColonEndsSource(ident[1..], rest);
    }
  }

  /** Two cursors of one store share a key exactly when their sources sanitize to the same
      identifier and their ids are equal: the separator cannot be forged. */
  lemma KeysCollideExactly(s1: string, c1: string, s2: string, c2: string)
    ensures CheckpointKey(s1, c1) == CheckpointKey(s2, c2) <==> SanitizeIdent(s1) == SanitizeIdent(s2) && c1 == c2
  {
    ColonEndsSource(SanitizeIdent(s1), c1);
    ColonEndsSource(SanitizeIdent(s2), c2);
    var k1, k2 := CheckpointKey(s1, c1), CheckpointKey(s2, c2);
    assert SanitizeIdent(s1) == k1[..|s1|] && c1 == k1[|s1| + 1..];
    assert SanitizeIdent(s2) == k2[..|s2|] && c2 == k2[|s2| + 1..];
  }

  /** Distinct sources do collide when only sanitized characters tell them apart. */
  lemma DottedSourceCollides(cursorId: string)
    ensures "a.b" != "a_b" && CheckpointKey("a.b", cursorId) == CheckpointKey("a_b", cursorId) == "a_b:" + cursorId
  {
    assert SanitizeIdent("a.b") == "a_b" == SanitizeIdent("a_b");
  }

  /** Sources that are identifiers already never collide. */
  lemma IdentSourcesSeparate(s1: string, c1: string, s2: string, c2: string)
    requires forall i :: 0 <= i < |s1| ==> 'a' <= s1[i] <= 'z' || 'A' <= s1[i] <= 'Z' || '0' <= s1[i] <= '9' || s1[i] == '_'
    requires forall i :: 0 <= i < |s2| ==> 'a' <= s2[i] <= 'z' || 'A' <= s2[i] <= 'Z' || '0' <= s2[i] <= '9' || s2[i] == '_'
    requires (s1, c1) != (s2, c2)
    ensures CheckpointKey(s1, c1) != CheckpointKey(s2, c2)
  {
    assert SanitizeIdent(s1) == s1 && SanitizeIdent(s2) == s2;
    KeysCollideExactly(s1, c1, s2, c2);
  }

  // ---------------------------------------------------------------- one update

  /** The directory an update works in: the target file and its temporary siblings. */
  class Disk {
    var file: Content
    var temps: map<nat, Content>
    var nextTemp: nat

    constructor (file: Content)
      ensures this.file == file && temps == map[] && nextTemp == 0
    {
      this.file, temps, nextTemp := file, map[], 0;
    }
  }

  /** How the file operations of an update go. */
  datatype Io = Io(readOk: bool, writeOk: bool, renameOk: bool, cleanOk: bool)

  class FileCheckpointStore {
    const disk: Disk
    const key: string

    constructor (disk: Disk, key: string)
      ensures this.disk == disk && this.key == key
    {
      this.disk, this.key := disk, key;
    }

    method Load(readOk: bool) returns (ok: bool, value: Option<string>)
      ensures ok == (readOk && !disk.file.Garbage?)
      ensures ok && disk.file.Absent? ==> value == None
      ensures ok && disk.file.Parsed? ==> value == if key in disk.file.cursors then Some(disk.file.cursors[key]) else None
    {
      var m := ReadMap(disk.file);
      ok := readOk && m.Some?;
      value := if ok then Lookup(m.value, key) else None;
    }

    method Save(value: string, io: Io) returns (ok: bool)
      modifies disk
      ensures Updated(Put(key, value), io, old(disk.file), disk.file, ok)
      ensures TempsKept(io, ok, old(disk.nextTemp), old(disk.temps), disk.temps)
      ensures ok ==> disk.file.Parsed? && key in disk.file.cursors && disk.file.cursors[key] == value
    {
      ok := Update(Put(key, value), io);
    }

    method Clear(io: Io) returns (ok: bool)
      modifies disk
      ensures Updated(Remove(key), io, old(disk.file), disk.file, ok)
      ensures TempsKept(io, ok, old(disk.nextTemp), old(disk.temps), disk.temps)
      ensures ok ==> disk.file.Parsed? && key !in disk.file.cursors
    {
      ok := Update(Remove(key), io);
    }

    /** One undisturbed read-modify-write: write a fresh temp file, then rename it over the target.
        Removing the temp file after a failure is best effort. */
    method Update(change: Change, io: Io) returns (ok: bool)
      modifies disk
      ensures Updated(change, io, old(disk.file), disk.file, ok)
      ensures TempsKept(io, ok, old(disk.nextTemp), old(disk.temps), disk.temps)
      ensures !ok ==> disk.file == old(disk.file)
      ensures ok <==> io.readOk && io.writeOk && io.renameOk && !old(disk.file).Garbage?
      ensures !io.readOk || old(disk.file).Garbage? ==> disk.temps == old(disk.temps) && disk.nextTemp == old(disk.nextTemp)
      ensures io.readOk && !old(disk.file).Garbage? ==>
                && disk.nextTemp == old(disk.nextTemp) + 1
                && (ok || io.cleanOk ==> disk.temps == old(disk.temps) - {old(disk.nextTemp)})
                && (!ok && !io.cleanOk ==>
                      disk.temps == old(disk.temps)[old(disk.nextTemp) :=
                        if io.writeOk then Parsed(Apply(ReadMap(old(disk.file)).value, change)) else Garbage])
      ensures ok ==> && disk.file.Parsed?
                     && disk.file.cursors - {change.key} == (if old(disk.file).Parsed? then old(disk.file).cursors else map[]) - {change.key}
    {
      var m := ReadMap(disk.file);
      if !io.readOk || m.None? {
        return false;
      }
      var bytes := Parsed(Apply(m.value, change));
      var temp := disk.nextTemp;
      disk.nextTemp := temp + 1;
      disk.temps := disk.temps[temp := Garbage];
      if !io.writeOk {
        if io.cleanOk {
          disk.temps := disk.temps - {temp};
        }
        return false;
      }
      disk.temps := disk.temps[temp := bytes];
      if !io.renameOk {
        if io.cleanOk {
          disk.temps := disk.temps - {temp};
        }
        return false;
      }
      disk.file := disk.temps[temp];
      disk.temps := disk.temps - {temp};
      ok := true;
    }
  }

  /** All or nothing: success publishes exactly the changed map, any failure leaves the file alone. */
  ghost predicate Updated(change: Change, io: Io, before: Content, after: Content, ok: bool) {
    && ok == (io.readOk && io.writeOk && io.renameOk && !before.Garbage?)
    && after == (if ok then Parsed(Apply(ReadMap(before).value, change)) else before)
  }

  /** Other temp files are not touched, and this update's own stays behind only if it failed and could
      not be removed. */
  ghost predicate TempsKept(io: Io, ok: bool, temp: nat, before: map<nat, Content>, after: map<nat, Content>) {
    && after - {temp} == before - {temp}
    && (temp !in before && (ok || io.cleanOk || !io.readOk) ==> after == before)
  }
}
