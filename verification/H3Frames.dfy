/** The frames of HTTP/3 that carry neither header blocks nor pushes, and SETTINGS entries. */
module H3Frames {
  import opened MachineWords
  import opened H3Octets

  // Frame types.
  const DATA: nat := 0x0
  const HEADERS: nat := 0x1
  const CANCEL_PUSH: nat := 0x3
  const SETTINGS: nat := 0x4
  const PUSH_PROMISE: nat := 0x5
  const GOAWAY: nat := 0x7
  const MAX_PUSH_ID: nat := 0xd

  predicate KnownFrame(t: nat) {
    t in {DATA, HEADERS, CANCEL_PUSH, SETTINGS, PUSH_PROMISE, GOAWAY, MAX_PUSH_ID}
  }

  datatype H3Error =
    | UnexpectedFrame(frameType: nat)
    | FrameSizeError(length: nat)
    | UnsupportedSetting(key: nat)
    | BufferTooShort
    | TooManySettings

  type Entry = (nat, nat)

  datatype Settings = Settings(
    maxFieldSection: Option<nat>,
    connectProtocol: Option<nat>,
    qpackCapacity: Option<nat>,
    qpackBlocked: Option<nat>,
    datagram: Option<nat>,
    additional: Option<seq<Entry>>)

  const DEFAULT := Settings(None, None, None, None, None, None)

  // Setting identifiers.
  const QPACK_CAPACITY: nat := 0x1
  const MAX_FIELD_SECTION: nat := 0x6
  const QPACK_BLOCKED: nat := 0x7
  const CONNECT_PROTOCOL: nat := 0x8
  const H3_DATAGRAM: nat := 0x33

  predicate KnownSetting(k: nat) {
    k in {QPACK_CAPACITY, MAX_FIELD_SECTION, QPACK_BLOCKED, CONNECT_PROTOCOL, H3_DATAGRAM}
  }

  /** Identifiers of HTTP/2 that must not appear. */
  predicate Reserved(k: nat) {
    k in {0x0, 0x2, 0x3, 0x4, 0x5}
  }

  predicate Additional(k: nat) {
    !KnownSetting(k) && !Reserved(k)
  }

  /** Keys that are neither those of named settings nor reserved. */
  predicate AllAdditional(es: seq<Entry>) {
    forall i | 0 <= i < |es| :: Additional(es[i].0)
  }

  //
  // Encoding.
  //

  function One(k: nat, v: Option<nat>): seq<Entry> {
    if v.None? then [] else [(k, v.value)]
  }

  /** The entries that carry the named settings, in the order in which they are written. */
  function NamedEntries(s: Settings): (es: seq<Entry>)
    ensures |es| <= 5
  {
    One(MAX_FIELD_SECTION, s.maxFieldSection) + One(CONNECT_PROTOCOL, s.connectProtocol)
    + One(QPACK_CAPACITY, s.qpackCapacity) + One(QPACK_BLOCKED, s.qpackBlocked) + One(H3_DATAGRAM, s.datagram)
  }

  function ExtraEntries(s: Settings): seq<Entry> {
    if s.additional.None? then [] else s.additional.value
  }

  function Entries(s: Settings): seq<Entry> {
    NamedEntries(s) + ExtraEntries(s)
  }

  predicate Small(es: seq<Entry>) {
    forall i | 0 <= i < |es| :: es[i].0 < VARINT_LIMIT && es[i].1 < VARINT_LIMIT
  }

  function EntryBytes(es: seq<Entry>): Bytes
    requires Small(es)
  {
    if es == [] then [] else Varint(es[0].0) + Varint(es[0].1) + EntryBytes(es[1..])
  }

  //
  // Decoding.
  //

  /** The named settings and the additional ones that were read so far. */
  datatype Reading = Reading(named: Settings, extra: seq<Entry>) | Refused(error: H3Error)

  function Enter(r: Reading, e: Entry): Reading
    requires r.Reading?
  {
    var (k, v) := e;
    if k == QPACK_CAPACITY then r.(named := r.named.(qpackCapacity := Some(v)))
    else if k == CONNECT_PROTOCOL then r.(named := r.named.(connectProtocol := Some(v)))
    else if k == H3_DATAGRAM then r.(named := r.named.(datagram := Some(v)))
    else if k == MAX_FIELD_SECTION then r.(named := r.named.(maxFieldSection := Some(v)))
    else if k == QPACK_BLOCKED then r.(named := r.named.(qpackBlocked := Some(v)))
    else if Reserved(k) then Refused(UnsupportedSetting(k))
    else r.(extra := r.extra + [e])
  }

  function EnterAll(r: Reading, es: seq<Entry>): Reading
    decreases |es|
  {
    if r.Refused? || es == [] then r else EnterAll(Enter(r, es[0]), es[1..])
  }

  function Outcome(r: Reading): Settings
    requires r.Reading?
  {
    if r.extra == [] then r.named else r.named.(additional := Some(r.extra))
  }

  /** An empty list of additional settings is not told from none. */
  function Normal(s: Settings): Settings {
    if s.additional == Some([]) then s.(additional := None) else s
  }

  const START := Reading(DEFAULT, [])

  lemma {:induction false} EnterConcat(r: Reading, a: seq<Entry>, b: seq<Entry>)
    ensures EnterAll(r, a + b) == EnterAll(EnterAll(r, a), b)
    decreases |a|
  {
    if a == [] {
      assert a + b == b;
    } else if r.Reading? {
      assert (a + b)[0] == a[0] && (a + b)[1..] == a[1..] + b;
      EnterConcat(Enter(r, a[0]), a[1..], b);
    }
  }

  lemma EnterOne(r: Reading, k: nat, v: Option<nat>)
    requires r.Reading?
    ensures EnterAll(r, One(k, v)) == if v.None? then r else Enter(r, (k, v.value))
  {
    if v.Some? {
      assert EnterAll(Enter(r, (k, v.value)), []) == Enter(r, (k, v.value));
    }
  }

  lemma EnterNamed(s: Settings)
    ensures EnterAll(START, NamedEntries(s)) == Reading(s.(additional := None), [])
  {
    var a, b := One(MAX_FIELD_SECTION, s.maxFieldSection), One(CONNECT_PROTOCOL, s.connectProtocol);
    var c, d := One(QPACK_CAPACITY, s.qpackCapacity), One(QPACK_BLOCKED, s.qpackBlocked);
    var e := One(H3_DATAGRAM, s.datagram);
    hide EnterAll, One;
    EnterConcat(START, a + b + c + d, e);
    EnterConcat(START, a + b + c, d);
    EnterConcat(START, a + b, c);
    EnterConcat(START, a, b);
    EnterOne(START, MAX_FIELD_SECTION, s.maxFieldSection);
    var r1 := START.(named := START.named.(maxFieldSection := s.maxFieldSection));
    EnterOne(r1, CONNECT_PROTOCOL, s.connectProtocol);
    var r2 := r1.(named := r1.named.(connectProtocol := s.connectProtocol));
    EnterOne(r2, QPACK_CAPACITY, s.qpackCapacity);
    var r3 := r2.(named := r2.named.(qpackCapacity := s.qpackCapacity));
    EnterOne(r3, QPACK_BLOCKED, s.qpackBlocked);
    var r4 := r3.(named := r3.named.(qpackBlocked := s.qpackBlocked));
    EnterOne(r4, H3_DATAGRAM, s.datagram);
  }

  // Every entry that is not an additional one is refused, or lost among the named ones.
  lemma {:induction false} EnterExtra(r: Reading, es: seq<Entry>)
    requires r.Reading?
    ensures
      var r' := EnterAll(r, es);
      && (r'.Reading? ==> |r'.extra| <= |r.extra| + |es| && r'.named.additional == r.named.additional)
      && (if AllAdditional(es) then r' == r.(extra := r.extra + es)
          else r'.Reading? ==> |r'.extra| < |r.extra| + |es|)
    decreases |es|
  {
    if es == [] {
      assert r.extra + es == r.extra;
    } else {
      var r1 := Enter(r, es[0]);
      if r1.Reading? {
        EnterExtra(r1, es[1..]);
        assert r.extra + [es[0]] + es[1..] == r.extra + es;
        assert AllAdditional(es) <==> Additional(es[0].0) && AllAdditional(es[1..]);
      }
    }
  }

  /**
   The entries of settings are read as those settings exactly if the additional
   keys are neither reserved nor those of named settings.
   */
  lemma EntriesRoundTrip(s: Settings)
    ensures
      var r := EnterAll(START, Entries(s));
      r.Reading? && Outcome(r) == Normal(s) <==> AllAdditional(ExtraEntries(s))
  {
    var extra := ExtraEntries(s);
    var named := Reading(s.(additional := None), []);
    EnterConcat(START, NamedEntries(s), extra);
    EnterNamed(s);
    EnterExtra(named, extra);
    assert [] + extra == extra;
    hide EnterAll, NamedEntries, AllAdditional;
    var r := EnterAll(named, extra);
    if r.Reading? && Outcome(r) == Normal(s) {
      assert |r.extra| == |extra|;
    }
  }

  /** At most 5 named and 50 additional entries of at most 16 bytes. */
  lemma {:induction false} EntryBytesBound(es: seq<Entry>)
    requires Small(es)
    ensures |EntryBytes(es)| <= 16 * |es|
    decreases |es|
  {
    hide Varint;
    if es != [] {
      EntryBytesBound(es[1..]);
    }
  }

  lemma {:induction false} EntryBytesConcat(a: seq<Entry>, b: seq<Entry>)
    requires Small(a) && Small(b)
    ensures Small(a + b) && EntryBytes(a + b) == EntryBytes(a) + EntryBytes(b)
    decreases |a|
  {
    hide Varint;
    if a == [] {
      assert a + b == b;
    } else {
      assert (a + b)[0] == a[0] && (a + b)[1..] == a[1..] + b;
      EntryBytesConcat(a[1..], b);
    }
  }
}
