/** The credential store: a table in memory, a file that grows with it, and runs of logins and restarts. */
module AuthStore {
  import opened AuthRecords
  import opened Basics

  // ---- reading the file -----------------------------------------------------------

  // Where a read of one line from k characters in ends: after a line end, or when the
  // buffer is full.
  function LineEnd(text: string, k: nat): (n: nat)
    requires k <= |text|
    ensures k <= n <= |text| && (k == 0 && text != "" ==> n > 0)
    decreases |text| - k
  {
    if k == |text| || k >= LINE_LEN then k
    else if text[k] == '\n' then k + 1
    else LineEnd(text, k + 1)
  }

  function Chopped(line: string): string {
    if line != "" && line[|line| - 1] == '\n' then line[..|line| - 1] else line
  }

  function Loaded(text: string, table: seq<Entry>): seq<Entry>
    decreases |text|
  {
    if |table| >= MAX_USERS || text == "" then table
    else
      var n := LineEnd(text, 0);
      match ParsedLine(Chopped(text[..n]))
      case None => Loaded(text[n..], table)
      case Some(e) => Loaded(text[n..], table + [e])
  }

  predicate EndsLine(text: string) {
    text != "" ==> text[|text| - 1] == '\n'
  }

  // ---- logging in -----------------------------------------------------------------

  function Lower(c: char): char {
    if 'A' <= c <= 'Z' then (c as int + 32) as char else c
  }

  predicate SameName(a: string, b: string) {
    |a| == |b| && forall i | 0 <= i < |a| :: Lower(a[i]) == Lower(b[i])
  }

  // Names are the same if they differ in the case of letters at most.
  lemma CaseIgnored(a: string, b: string)
    ensures SameName(a, b) <==> |a| == |b| && forall i | 0 <= i < |a| :: a[i] == b[i] || CaseOnly(a[i], b[i]) || CaseOnly(b[i], a[i])
  {
  }

  predicate CaseOnly(small: char, capital: char) {
    'a' <= small <= 'z' && 'A' <= capital <= 'Z' && small as int - 'a' as int == capital as int - 'A' as int
  }

  // The first entry from i on with the name, whatever its case; the table's size if none has it.
  function FindFrom(table: seq<Entry>, name: string, i: nat): (r: nat)
    requires i <= |table|
    ensures i <= r <= |table|
    ensures forall k | i <= k < r :: !SameName(table[k].name, name)
    ensures r < |table| ==> SameName(table[r].name, name)
    decreases |table| - i
  {
    if i == |table| || SameName(table[i].name, name) then i else FindFrom(table, name, i + 1)
  }

  const ITERATIONS: nat := 100000

  function Stored(name: string): string {
    if |name| > MAX_NAME then name[..MAX_NAME] else name
  }

  datatype Answer = Ok | BadPassword | Error
  datatype Outcome = Outcome(answer: Answer, registered: bool)
  datatype Store = Store(entries: seq<Entry>, file: string)

  // The password hash of a salt and an iteration count, or none if it fails.
  type Derive = (string, seq<Byte>, nat) -> Option<seq<Byte>>

  ghost predicate DeriveOk(d: Derive) {
    forall p, s, n :: d(p, s, n).Some? ==> |d(p, s, n).value| == HASH_LEN
  }

  // A login, with the random salt drawn for it (if any) and whether the file opens for
  // writing; or the server stopping and starting again.
  datatype Event = Login(name: string, password: string, salt: Option<seq<Byte>>, canWrite: bool) | Restart

  function NewEntry(d: Derive, name: string, password: string, salt: seq<Byte>): Option<Entry> {
    match d(password, salt, ITERATIONS)
    case None => None
    case Some(hash) => Some(Entry(Stored(name), salt, ITERATIONS, hash))
  }

  function LoggedIn(d: Derive, s: Store, name: string, password: string, salt: Option<seq<Byte>>, canWrite: bool): (Store, Outcome) {
    var i := FindFrom(s.entries, name, 0);
    if i < |s.entries| then
      match d(password, s.entries[i].salt, s.entries[i].iterations)
      case None => (s, Outcome(Error, false))
      case Some(hash) => (s, Outcome(if hash == s.entries[i].hash then Ok else BadPassword, false))
    else if |s.entries| >= MAX_USERS || salt == None || !canWrite then (s, Outcome(Error, false))
    else
      match NewEntry(d, name, password, salt.value)
      case None => (s, Outcome(Error, false))
      case Some(e) => (Store(s.entries + [e], s.file + Printed(e)), Outcome(Ok, true))
  }

  class CredentialStore {
    const derive: Derive
    var entries: seq<Entry>
    var file: string

    function State(): Store
      reads this
    {
      Store(entries, file)
    }

    constructor (derive: Derive, file: string)
      ensures this.derive == derive && State() == Store(Loaded(file, []), file)
    {
      this.derive, this.file, entries := derive, file, [];
      new;
      LoadFromFile();
    }

    // Starting again: the table is read anew.
    method Init()
      modifies this`entries
      ensures State() == Store(Loaded(file, []), file)
    {
      entries := [];
      LoadFromFile();
    }

    method LoadFromFile()
      modifies this`entries
      ensures entries == Loaded(file, old(entries))
    {
      hide ParsedLine;
      var rest := file;
      while |entries| < MAX_USERS && rest != ""
        invariant Loaded(rest, entries) == Loaded(file, old(entries))
        decreases |rest|
      {
        var n := LineEnd(rest, 0);
        var line := Chopped(rest[..n]);
        rest := rest[n..];
        var parsed := ParsedLine(line);
        if parsed == None {
          continue;
        }
        entries := entries + [parsed.value];
      }
    }

    method FindEntry(name: string) returns (i: nat)
      ensures i == FindFrom(entries, name, 0)
    {
      hide SameName;
      i := 0;
      while i < |entries|
        invariant i <= |entries| && FindFrom(entries, name, i) == FindFrom(entries, name, 0)
      {
        if SameName(entries[i].name, name) {
          return;
        }
        i := i + 1;
      }
    }

    method AppendEntry(e: Entry, canWrite: bool) returns (ok: bool)
      modifies this`file
      ensures ok == canWrite && file == if canWrite then old(file) + Printed(e) else old(file)
    {
      if !canWrite {
        return false;
      }
      var saltHex := BytesToHex(e.salt);
      var hashHex := BytesToHex(e.hash);
      file := file + (e.name + ":" + saltHex + ":" + Decimal(e.iterations) + ":" + hashHex + "\n");
      return true;
    }

    method Authenticate(name: string, password: string, salt: Option<seq<Byte>>, canWrite: bool) returns (outcome: Outcome)
      modifies this
      ensures (State(), outcome) == LoggedIn(derive, old(State()), name, password, salt, canWrite)
    {
      hide Printed, FindFrom;
      var i := FindEntry(name);
      if i >= |entries| {
        if |entries| >= MAX_USERS || salt == None {
          return Outcome(Error, false);
        }
        var entry := NewEntry(derive, name, password, salt.value);
        if entry == None {
          return Outcome(Error, false);
        }
        var appended := AppendEntry(entry.value, canWrite);
        if !appended {
          return Outcome(Error, false);
        }
        entries := entries + [entry.value];
        return Outcome(Ok, true);
      }
      var computed := derive(password, entries[i].salt, entries[i].iterations);
      if computed == None {
        return Outcome(Error, false);
      }
      return Outcome(if computed.value == entries[i].hash then Ok else BadPassword, false);
    }
  }

  // ---- the file reads back as the table ---------------------------------------------

  lemma {:induction false} LineEndWithin(text: string, more: string, k: nat)
    requires text != "" && EndsLine(text) && k < |text|
    ensures LineEnd(text + more, k) == LineEnd(text, k)
    decreases |text| - k
  {
    if k < LINE_LEN && text[k] != '\n' {
      LineEndWithin(text, more, k + 1);
    }
  }

  lemma {:induction false} LineEndExact(line: string, rest: string, k: nat)
    requires k <= |line| < LINE_LEN && forall i | 0 <= i < |line| :: line[i] != '\n'
    ensures LineEnd(line + "\n" + rest, k) == |line| + 1
    decreases |line| - k
  {
    if k < |line| {
      LineEndExact(line, rest, k + 1);
    }
  }

  lemma OneRecordLoads(e: Entry, table: seq<Entry>)
    requires e.Valid() && GoodName(e.name) && |table| < MAX_USERS
    ensures Loaded(Printed(e), table) == table + [e]
  {
    hide ParsedLine, Printed, LineOf;
    LineReadsBack(e);
    var line := LineOf(e);
    LineEndExact(line, "", 0);
    assert line + "\n" + "" == line + "\n";
    assert (line + "\n")[..|line| + 1] == line + "\n" && (line + "\n")[|line| + 1..] == "";
    assert Chopped(line + "\n") == line;
  }

  // Appending a record to a file of whole lines appends it to what is loaded.
  lemma {:induction false} AppendedLoads(text: string, table: seq<Entry>, e: Entry)
    requires EndsLine(text) && e.Valid() && GoodName(e.name)
    ensures Loaded(text + Printed(e), table) == (if |Loaded(text, table)| < MAX_USERS then Loaded(text, table) + [e] else Loaded(text, table))
    decreases |text|
  {
    hide ParsedLine, Printed, GoodName;
    if |table| >= MAX_USERS {
    } else if text == "" {
      assert text + Printed(e) == Printed(e);
      OneRecordLoads(e, table);
    } else {
      var n := LineEnd(text, 0);
      LineEndWithin(text, Printed(e), 0);
      assert (text + Printed(e))[..n] == text[..n] && (text + Printed(e))[n..] == text[n..] + Printed(e);
      match ParsedLine(Chopped(text[..n]))
      case None => AppendedLoads(text[n..], table, e);
      case Some(f) => AppendedLoads(text[n..], table + [f], e);
    }
  }

  ghost predicate OneLine(s: string) {
    forall i | 0 <= i < |s| :: s[i] != '\n'
  }

  ghost predicate AllGood(table: seq<Entry>) {
    forall i | 0 <= i < |table| :: table[i].Valid() && GoodName(table[i].name)
  }

  lemma {:induction false} LineHasNoEnd(text: string, k: nat)
    requires k <= |text| && OneLine(text[..k])
    ensures OneLine(Chopped(text[..LineEnd(text, k)]))
    decreases |text| - k
  {
    if k == |text| || k >= LINE_LEN {
      assert Chopped(text[..k]) == text[..k];
    } else if text[k] == '\n' {
      assert text[..k + 1][..k] == text[..k];
    } else {
      assert text[..k + 1] == text[..k] + [text[k]];
      LineHasNoEnd(text, k + 1);
    }
  }

  // Whatever the file holds, what is loaded from it is at most 256 well-formed accounts.
  lemma {:induction false} LoadedGood(text: string, table: seq<Entry>)
    requires AllGood(table) && |table| <= MAX_USERS
    ensures AllGood(Loaded(text, table)) && |Loaded(text, table)| <= MAX_USERS
    decreases |text|
  {
    hide ParsedLine, GoodName;
    if |table| < MAX_USERS && text != "" {
      var n := LineEnd(text, 0);
      var line := Chopped(text[..n]);
      LineHasNoEnd(text, 0);
      match ParsedLine(line)
      case None => LoadedGood(text[n..], table);
      case Some(e) =>
        ParsedNameGood(line);
        LoadedGood(text[n..], table + [e]);
    }
  }

  // ---- every run --------------------------------------------------------------------

  ghost predicate Unique(table: seq<Entry>) {
    forall i, j | 0 <= i < j < |table| :: !SameName(table[i].name, table[j].name)
  }

  ghost predicate StoreOk(s: Store) {
    && EndsLine(s.file) && Loaded(s.file, []) == s.entries
    && Unique(s.entries) && AllGood(s.entries) && |s.entries| <= MAX_USERS
  }

  ghost predicate GoodEvent(e: Event) {
    e.Login? ==> GoodName(e.name) && (e.salt.Some? ==> |e.salt.value| == SALT_LEN)
  }

  function After(d: Derive, s: Store, e: Event): (Store, seq<Outcome>) {
    match e
    case Restart => (Store(Loaded(s.file, []), s.file), [])
    case Login(name, password, salt, canWrite) =>
      var (t, outcome) := LoggedIn(d, s, name, password, salt, canWrite);
      (t, [outcome])
  }

  function Run(d: Derive, s: Store, events: seq<Event>): (Store, seq<Outcome>) {
    if events == [] then (s, [])
    else
      var (t, before) := Run(d, s, events[..|events| - 1]);
      var (u, last) := After(d, t, events[|events| - 1]);
      (u, before + last)
  }

  // A service that starts on no file at all.
  lemma EmptyStoreOk()
    ensures StoreOk(Store([], ""))
  {
  }

  lemma NewNameUnique(table: seq<Entry>, e: Entry)
    requires Unique(table) && FindFrom(table, e.name, 0) == |table|
    ensures Unique(table + [e])
  {
    hide SameName;
  }

  lemma LoginKeeps(d: Derive, s: Store, name: string, password: string, salt: Option<seq<Byte>>, canWrite: bool)
    requires DeriveOk(d) && StoreOk(s) && GoodName(name) && (salt.Some? ==> |salt.value| == SALT_LEN)
    ensures var t := LoggedIn(d, s, name, password, salt, canWrite).0;
            StoreOk(t) && s.entries <= t.entries && s.file <= t.file
  {
    hide SameName, ParsedLine, Printed, Loaded, Plain;
    var (t, outcome) := LoggedIn(d, s, name, password, salt, canWrite);
    if t != s {
      var e := t.entries[|s.entries|];
      AppendedLoads(s.file, [], e);
      NewNameUnique(s.entries, e);
      PrintedEnds(s.file, e);
    }
  }

  lemma PrintedEnds(file: string, e: Entry)
    ensures EndsLine(file + Printed(e))
  {
  }

  // In every run the names stay unique whatever their case, the table only grows, up to
  // 256, and the file always reads back as exactly the table.
  lemma {:induction false} RunKeeps(d: Derive, s: Store, events: seq<Event>)
    requires DeriveOk(d) && StoreOk(s) && forall e | e in events :: GoodEvent(e)
    ensures var t := Run(d, s, events).0;
            StoreOk(t) && s.entries <= t.entries && s.file <= t.file
  {
    hide StoreOk, LoggedIn, DeriveOk, GoodName;
    if events != [] {
      var front, last := events[..|events| - 1], events[|events| - 1];
      assert last in events && forall e | e in front :: e in events;
      RunKeeps(d, s, front);
      var t := Run(d, s, front).0;
      match last
      case Restart => RestartKeeps(t);
      case Login(name, password, salt, canWrite) =>
        LoginKeeps(d, t, name, password, salt, canWrite);
    }
  }

  lemma RestartKeeps(s: Store)
    requires StoreOk(s)
    ensures Store(Loaded(s.file, []), s.file) == s
  {
  }

  function WithoutRestarts(events: seq<Event>): seq<Event> {
    if events == [] then []
    else WithoutRestarts(events[..|events| - 1]) + (if events[|events| - 1].Restart? then [] else [events[|events| - 1]])
  }

  // Restarts anywhere in a run change neither the table, nor the file, nor any answer.
  lemma {:induction false} RestartsChangeNothing(d: Derive, s: Store, events: seq<Event>)
    requires DeriveOk(d) && StoreOk(s) && forall e | e in events :: GoodEvent(e)
    ensures Run(d, s, WithoutRestarts(events)) == Run(d, s, events)
  {
    hide StoreOk, After, DeriveOk, GoodEvent;
    if events != [] {
      var front, last := events[..|events| - 1], events[|events| - 1];
      assert forall e | e in front :: e in events;
      RestartsChangeNothing(d, s, front);
      RunKeeps(d, s, front);
      if last.Restart? {
        RestartStep(d, Run(d, s, front).0);
        assert WithoutRestarts(events) == WithoutRestarts(front);
        assert Run(d, s, front).1 + [] == Run(d, s, front).1;
      } else {
        var some := WithoutRestarts(front);
        assert (some + [last])[..|some|] == some;
      }
    }
  }

  lemma RestartStep(d: Derive, s: Store)
    requires StoreOk(s)
    ensures After(d, s, Restart) == (s, [])
  {
    RestartKeeps(s);
  }

  // ---- what keeps an account --------------------------------------------------------

  // A new account lasts, found again by its name and read back after a restart, exactly
  // when the name has 1 to 32 characters and no colon or line end.
  lemma RegistrationLasts(d: Derive, s: Store, name: string, password: string, salt: seq<Byte>)
    requires DeriveOk(d) && StoreOk(s) && |salt| == SALT_LEN
    requires LoggedIn(d, s, name, password, Some(salt), true).1.registered
    ensures var t := LoggedIn(d, s, name, password, Some(salt), true).0;
            FindFrom(t.entries, name, 0) < |t.entries| && Loaded(t.file, []) == t.entries <==> GoodName(name)
  {
    hide ParsedLine, Printed, Loaded, Plain;
    var t := LoggedIn(d, s, name, password, Some(salt), true).0;
    var e := t.entries[|s.entries|];
    if GoodName(name) {
      LoginKeeps(d, s, name, password, Some(salt), true);
      assert SameName(e.name, name);
    } else if |name| > MAX_NAME {
      LongNameLost(s.entries, e, name);
    } else {
      EmptyGood();
      LoadedGood(t.file, []);
      if Loaded(t.file, []) == t.entries {
        assert GoodName(Loaded(t.file, [])[|s.entries|].name);
      }
    }
  }

  lemma EmptyGood()
    ensures AllGood([])
  {
  }

  lemma LongNameLost(table: seq<Entry>, e: Entry, name: string)
    requires FindFrom(table, name, 0) == |table| && e.name == Stored(name) && |name| > MAX_NAME
    ensures FindFrom(table + [e], name, 0) == |table| + 1
  {
    var more := table + [e];
    forall k | 0 <= k < |more|
      ensures !SameName(more[k].name, name)
    {
      if k < |table| {
        assert more[k] == table[k];
      }
    }
  }

  // Once registered, a name in any case and the same password are let in on every later
  // login of the run, without registering again; another password is let in exactly when
  // it hashes to the same.
  lemma KnownNameAnswers(d: Derive, s: Store, events: seq<Event>, i: nat, name: string, password: string, salt: Option<seq<Byte>>, canWrite: bool)
    requires DeriveOk(d) && StoreOk(s) && (forall e | e in events :: GoodEvent(e))
    requires i < |s.entries| && SameName(s.entries[i].name, name)
    ensures var (t, outcome) := LoggedIn(d, Run(d, s, events).0, name, password, salt, canWrite);
            && t == Run(d, s, events).0 && !outcome.registered
            && (outcome.answer == Ok <==> d(password, s.entries[i].salt, s.entries[i].iterations) == Some(s.entries[i].hash))
  {
    hide Run, Loaded, GoodEvent;
    RunKeeps(d, s, events);
    var t := Run(d, s, events).0;
    assert t.entries[i] == s.entries[i];
    var k := FindFrom(t.entries, name, 0);
    FoundIsIt(t.entries, name, i);
  }

  lemma FoundIsIt(table: seq<Entry>, name: string, i: nat)
    requires Unique(table) && i < |table| && SameName(table[i].name, name)
    ensures FindFrom(table, name, 0) == i
  {
    hide SameName;
    var k := FindFrom(table, name, 0);
    if k < i {
      BothSame(table[k].name, name, table[i].name);
    }
  }

  lemma BothSame(a: string, name: string, b: string)
    requires SameName(a, name) && SameName(b, name)
    ensures SameName(a, b)
  {
  }

  // ---- what a login does ------------------------------------------------------------

  ghost predicate Stranger(table: seq<Entry>, name: string) {
    forall i | 0 <= i < |table| :: !SameName(table[i].name, name)
  }

  // A login in every case. A known name is judged by the first entry that has it and changes
  // nothing. A stranger is let in and registered, under the salt drawn and 100000 rounds,
  // exactly when there is room, a salt, a hash and a file to write to; else nothing changes.
  lemma LoginSays(d: Derive, s: Store, name: string, password: string, salt: Option<seq<Byte>>, canWrite: bool)
    ensures var (t, outcome) := LoggedIn(d, s, name, password, salt, canWrite);
            && (forall i | 0 <= i < |s.entries| && SameName(s.entries[i].name, name) && Stranger(s.entries[..i], name) ::
                  t == s && !outcome.registered && Judged(d(password, s.entries[i].salt, s.entries[i].iterations), s.entries[i].hash, outcome.answer))
            && (Stranger(s.entries, name) ==>
                  if |s.entries| < 256 && salt.Some? && canWrite && d(password, salt.value, 100000).Some? then
                    && outcome == Outcome(Ok, true) && |t.entries| == |s.entries| + 1 && s.entries <= t.entries
                    && Registered(t.entries[|s.entries|], name, salt.value, d(password, salt.value, 100000).value)
                    && t.file == s.file + Printed(t.entries[|s.entries|])
                  else t == s && outcome == Outcome(Error, false))
  {
    hide SameName, Printed;
    forall i | 0 <= i < |s.entries| && SameName(s.entries[i].name, name) && Stranger(s.entries[..i], name)
      ensures FindFrom(s.entries, name, 0) == i
    {
      assert forall k | 0 <= k < i :: s.entries[..i][k] == s.entries[k];
    }
  }

  ghost predicate Judged(computed: Option<seq<Byte>>, stored: seq<Byte>, answer: Answer) {
    && (answer == Error <==> computed == None)
    && (answer == Ok <==> computed == Some(stored))
  }

  ghost predicate Registered(e: Entry, name: string, salt: seq<Byte>, hash: seq<Byte>) {
    && e.name <= name && (|name| <= 32 ==> e.name == name) && (|name| > 32 ==> |e.name| == 32)
    && e.salt == salt && e.iterations == 100000 && e.hash == hash
  }

  // Whoever registers a good name is let in from then on, through any logins and restarts,
  // whatever case the name is written in: by the password of the registration, and by
  // another one exactly when it has the same hash.
  lemma PasswordStays(d: Derive, s: Store, name: string, password: string, salt: seq<Byte>, events: seq<Event>, again: string, other: string)
    requires DeriveOk(d) && StoreOk(s) && GoodName(name) && |salt| == SALT_LEN && forall e | e in events :: GoodEvent(e)
    requires Stranger(s.entries, name) && |s.entries| < 256 && d(password, salt, 100000).Some? && SameName(name, again)
    ensures var t := Run(d, LoggedIn(d, s, name, password, Some(salt), true).0, events).0;
            (LoggedIn(d, t, again, other, None, false).1 == Outcome(Ok, false) <==> d(other, salt, 100000) == d(password, salt, 100000))
  {
    hide Run, Loaded, GoodEvent, SameName, StoreOk, LoggedIn, Printed;
    var u := LoggedIn(d, s, name, password, Some(salt), true).0;
    LoginSays(d, s, name, password, Some(salt), true);
    LoginKeeps(d, s, name, password, Some(salt), true);
    KnownNameAnswers(d, u, events, |s.entries|, again, other, None, false);
  }

  // ---- what a file holds --------------------------------------------------------------

  function FileOf(lines: seq<string>): string {
    if lines == [] then "" else lines[0] + "\n" + FileOf(lines[1..])
  }

  // The records of the lines that are one, in order.
  function RecordsOf(lines: seq<string>): seq<Entry> {
    if lines == [] then []
    else (match ParsedLine(lines[0]) case None => [] case Some(e) => [e]) + RecordsOf(lines[1..])
  }

  function First(table: seq<Entry>, n: nat): seq<Entry> {
    if |table| > n then table[..n] else table
  }

  // A file of lines shorter than the buffer holds the first 256 records among its lines;
  // lines that are no record are passed over.
  lemma {:induction false} FileHolds(lines: seq<string>, table: seq<Entry>)
    requires |table| <= 256 && forall i | 0 <= i < |lines| :: OneLine(lines[i]) && |lines[i]| < LINE_LEN
    ensures Loaded(FileOf(lines), table) == First(table + RecordsOf(lines), 256)
  {
    hide ParsedLine;
    if |table| == 256 {
      assert (table + RecordsOf(lines))[..256] == table;
    } else if lines == [] {
      assert table + [] == table;
    } else {
      var line, rest := lines[0], FileOf(lines[1..]);
      LineEndExact(line, rest, 0);
      assert (line + "\n" + rest)[..|line| + 1] == line + "\n" && (line + "\n" + rest)[|line| + 1..] == rest;
      assert Chopped(line + "\n") == line;
      match ParsedLine(line)
      case None =>
        assert [] + RecordsOf(lines[1..]) == RecordsOf(lines[1..]);
        FileHolds(lines[1..], table);
      case Some(e) =>
        assert table + [e] + RecordsOf(lines[1..]) == table + ([e] + RecordsOf(lines[1..]));
        FileHolds(lines[1..], table + [e]);
    }
  }
}
