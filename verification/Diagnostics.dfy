/** The diagnostics service's answers (`include/sero/service/diagnostics_service.hpp`) and the
scanner's reading of them (`examples/diag_scanner.cpp`). */
module Diagnostics {
  import opened Words
  import opened Wire
  import opened DtcStore
  import Frame

  const E_OK: u8 := 0
  const E_NOT_OK: u8 := 1
  const E_MALFORMED_MESSAGE: u8 := 7

  /** A registered service, with what its readiness callback says. */
  datatype Service = Service(serviceId: u16, major: u8, minor: u8, authRequired: bool, ready: bool)

  /** A trouble code as the scanner keeps it. */
  datatype DeviceDtc = DeviceDtc(code: u16, severity: u8, status: u8, occurrences: u32, firstSeenMs: u32,
                                 lastSeenMs: u32)

  datatype DeviceInfo = DeviceInfo(clientId: u16, uptimeMs: u32, protocolVersion: u8)

  // ----------------------------------------------------------------- specification

  function Flag(b: bool): u8 {
    if b then 1 else 0
  }

  function DtcBytes(d: Dtc): (b: Bytes)
    ensures |b| == 16
  {
    U16(d.code) + [d.severity, Flag(d.active)] + U32(d.occurrences) + U32(d.firstSeenMs) + U32(d.lastSeenMs)
  }

  function ServiceBytes(s: Service): (b: Bytes)
    ensures |b| == 6
  {
    U16(s.serviceId) + [s.major, s.minor, Flag(s.authRequired), Flag(s.ready)]
  }

  function DtcList(s: seq<Dtc>): (b: Bytes)
    ensures |b| == 16 * |s|
  {
    if s == [] then [] else DtcList(s[..|s| - 1]) + DtcBytes(s[|s| - 1])
  }

  function ServiceList(s: seq<Service>): (b: Bytes)
    ensures |b| == 6 * |s|
  {
    if s == [] then [] else ServiceList(s[..|s| - 1]) + ServiceBytes(s[|s| - 1])
  }

  /** How many of `n` records fit behind the count: all of them, or as many as there is room for. */
  function DtcsFitting(n: nat, capacity: nat): (k: nat)
    requires capacity >= 2
    ensures k <= n && 2 + 16 * k <= capacity && (k == n || 2 + 16 * (k + 1) > capacity)
  {
    if n <= (capacity - 2) / 16 then n else (capacity - 2) / 16
  }

  function ServicesFitting(n: nat, capacity: nat): (k: nat)
    requires capacity >= 2
    ensures k <= n && 2 + 6 * k <= capacity && (k == n || 2 + 6 * (k + 1) > capacity)
  {
    if n <= (capacity - 2) / 6 then n else (capacity - 2) / 6
  }

  /** The answer's return code and bytes. The count is a 16-bit counter. */
  function EncodeDtcs(s: seq<Dtc>, capacity: nat): (u8, Bytes) {
    if capacity < 2 then (E_NOT_OK, [])
    else var k := DtcsFitting(|s|, capacity); (E_OK, U16(k % TWO_16) + DtcList(s[..k]))
  }

  function EncodeServices(s: seq<Service>, capacity: nat): (u8, Bytes) {
    if capacity < 2 then (E_NOT_OK, [])
    else var k := ServicesFitting(|s|, capacity); (E_OK, U16(k % TWO_16) + ServiceList(s[..k]))
  }

  function ClearRequest(s: seq<Dtc>, payload: Bytes): (seq<Dtc>, u8) {
    if |payload| < 2 then (s, E_MALFORMED_MESSAGE)
    else if ReadU16(payload, 0) == 0xFFFF then ([], E_OK)
    else var (s', found) := Clear(s, ReadU16(payload, 0)); (s', if found then E_OK else E_NOT_OK)
  }

  function CounterList(s: seq<u32>): (b: Bytes)
    ensures |b| == 4 * |s|
  {
    if s == [] then [] else CounterList(s[..|s| - 1]) + U32(s[|s| - 1])
  }

  function EncodeCounters(counters: Frame.Counters, capacity: nat): (u8, Bytes) {
    if capacity < 36 then (E_NOT_OK, []) else (E_OK, CounterList(counters))
  }

  function EncodeInfo(clientId: u16, uptimeMs: u32, capacity: nat): (u8, Bytes) {
    if capacity < 8 then (E_NOT_OK, []) else (E_OK, U16(clientId) + U32(uptimeMs) + [PROTOCOL_VERSION, 0])
  }

  // --------------------------------------------------------------- the service object

  class DiagnosticsService {
    const dtcs: DtcTable
    const clientId: u16

    constructor (dtcs: DtcTable, clientId: u16)
      ensures this.dtcs == dtcs && this.clientId == clientId
    {
      this.dtcs := dtcs;
      this.clientId := clientId;
    }

    /** `handle_get_dtcs`: fills the response buffer with as many records as fit. */
    method HandleGetDtcs(response: array<u8>) returns (rc: u8, length: nat)
      requires dtcs.Valid()
      modifies response
      ensures dtcs.Valid() && length <= response.Length
      ensures (rc, response[..length]) == EncodeDtcs(dtcs.Dtcs(), response.Length)
    {
      if response.Length < 2 {
        return E_NOT_OK, 0;
      }
      ghost var s := dtcs.Dtcs();
      ghost var k: nat;
      var offset, n;
      offset, n, k := FillDtcs(dtcs.dtcs, dtcs.count, response);
      hide DtcBytes, DtcList, U16, WellFormed;
      ghost var written := response[2..offset];
      WriteU16(response, 0, n);
      assert response[..offset] == response[0..2] + written;
      return E_OK, offset;
    }

    /** The iteration: every record that still fits is appended. */
    static method FillDtcs(table: array<Dtc>, count: nat, response: array<u8>)
        returns (offset: nat, n: u16, ghost k: nat)
      requires count <= table.Length && response.Length >= 2 && forall i :: 0 <= i < count ==> table[i].active
      modifies response
      ensures k == DtcsFitting(count, response.Length) && offset == 2 + 16 * k && n == k % TWO_16
      ensures response[2..offset] == DtcList(table[..count][..k])
    {
      hide DtcBytes, DtcList, DtcsFitting;
      offset, n, k := 2, 0, 0;
      ghost var s := table[..count];
      EmptyList(s);
      for i := 0 to count
        invariant k <= i && (k == i || offset + 16 > response.Length)
        invariant offset == 2 + 16 * k <= response.Length && n == k % TWO_16
        invariant response[2..offset] == DtcList(s[..k])
      {
        if table[i].active && offset + 16 <= response.Length {
          assert s[k] == table[i];
          AppendDtc(response, offset, table[i]);
          DtcListSnoc(s, k);
          offset, n, k := offset + 16, (n + 1) % TWO_16, k + 1;
        }
      }
      DtcsFittingIs(count, response.Length, k);
    }

    static method AppendDtc(response: array<u8>, offset: nat, d: Dtc)
      requires 2 <= offset && offset + 16 <= response.Length
      modifies response
      ensures response[2..offset + 16] == old(response[2..offset]) + DtcBytes(d)
    {
      hide DtcBytes;
      WriteDtc(response, offset, d);
      assert response[2..offset] == old(response[2..offset]);
      assert response[2..offset + 16] == response[2..offset] + response[offset..offset + 16];
    }

    static method WriteDtc(response: array<u8>, at: nat, d: Dtc)
      requires at + 16 <= response.Length
      modifies response
      ensures response[at..at + 16] == DtcBytes(d)
      ensures forall k :: 0 <= k < response.Length && !(at <= k < at + 16) ==> response[k] == old(response[k])
    {
      hide U16, U32;
      WriteU16(response, at, d.code);
      ghost var code := response[at..at + 2];
      response[at + 2] := d.severity;
      response[at + 3] := if d.active then 1 else 0;
      WriteU32(response, at + 4, d.occurrences);
      ghost var occurrences := response[at + 4..at + 8];
      WriteU32(response, at + 8, d.firstSeenMs);
      ghost var first := response[at + 8..at + 12];
      WriteU32(response, at + 12, d.lastSeenMs);
      assert response[at..at + 2] == code && response[at + 4..at + 8] == occurrences
        && response[at + 8..at + 12] == first;
      ghost var r := response[..];
      assert r[at..at + 2] == U16(d.code) && r[at + 4..at + 8] == U32(d.occurrences);
      assert r[at + 8..at + 12] == U32(d.firstSeenMs) && r[at + 12..at + 16] == U32(d.lastSeenMs);
      SliceOfSlice(r, at, 16, 0, 2);
      SliceOfSlice(r, at, 16, 4, 8);
      SliceOfSlice(r, at, 16, 8, 12);
      SliceOfSlice(r, at, 16, 12, 16);
      DtcParts(r[at..at + 16], d);
      assert response[at..at + 16] == r[at..at + 16];
    }

    /** `handle_get_service_list`. */
    method HandleGetServiceList(services: seq<Service>, response: array<u8>) returns (rc: u8, length: nat)
      modifies response
      ensures length <= response.Length
      ensures (rc, response[..length]) == EncodeServices(services, response.Length)
    {
      if response.Length < 2 {
        return E_NOT_OK, 0;
      }
      hide ServiceBytes, ServiceList, U16;
      ghost var k: nat;
      var offset, n;
      offset, n, k := FillServices(services, response);
      ghost var written := response[2..offset];
      WriteU16(response, 0, n);
      assert response[..offset] == response[0..2] + written;
      return E_OK, offset;
    }

    static method FillServices(services: seq<Service>, response: array<u8>) returns (offset: nat, n: u16, ghost k: nat)
      requires response.Length >= 2
      modifies response
      ensures k == ServicesFitting(|services|, response.Length) && offset == 2 + 6 * k && n == k % TWO_16
      ensures response[2..offset] == ServiceList(services[..k])
    {
      hide ServiceBytes, ServiceList, ServicesFitting;
      offset, n, k := 2, 0, 0;
      EmptyServices(services);
      for i := 0 to |services|
        invariant k <= i && (k == i || offset + 6 > response.Length)
        invariant offset == 2 + 6 * k <= response.Length && n == k % TWO_16
        invariant response[2..offset] == ServiceList(services[..k])
      {
        if offset + 6 <= response.Length {
          AppendService(response, offset, services[i]);
          ServiceListSnoc(services, k);
          offset, n, k := offset + 6, (n + 1) % TWO_16, k + 1;
        }
      }
      ServicesFittingIs(|services|, response.Length, k);
    }

    /** `handle_clear_dtcs`: code 0xFFFF clears the whole table. */
    method HandleClearDtcs(payload: Bytes) returns (rc: u8)
      requires dtcs.Valid()
      modifies dtcs, dtcs.dtcs
      ensures dtcs.Valid() && (dtcs.Dtcs(), rc) == ClearRequest(old(dtcs.Dtcs()), payload)
    {
      if |payload| < 2 {
        return E_MALFORMED_MESSAGE;
      }
      var code := ReadU16(payload, 0);
      if code == 0xFFFF {
        dtcs.ClearAll();
      } else {
        var found := dtcs.ClearDtc(code);
        if !found {
          return E_NOT_OK;
        }
      }
      return E_OK;
    }

    /** `handle_get_counters`. */
    method HandleGetCounters(counters: Frame.Counters, response: array<u8>) returns (rc: u8, length: nat)
      modifies response
      ensures length <= response.Length && (rc, response[..length]) == EncodeCounters(counters, response.Length)
    {
      hide U32, CounterList;
      if response.Length < 36 {
        return E_NOT_OK, 0;
      }
      EmptyCounters(counters);
      for i := 0 to 9
        invariant response[..4 * i] == CounterList(counters[..i])
      {
        ghost var written := response[..4 * i];
        WriteU32(response, 4 * i, counters[i]);
        CounterListSnoc(counters, i);
        assert response[..4 * i] == written;
        assert response[..4 * i + 4] == written + response[4 * i..4 * i + 4];
      }
      assert counters[..9] == counters;
      return E_OK, 36;
    }

    /** `handle_get_device_info`. */
    method HandleGetDeviceInfo(uptimeMs: u32, response: array<u8>) returns (rc: u8, length: nat)
      modifies response
      ensures length <= response.Length && (rc, response[..length]) == EncodeInfo(clientId, uptimeMs, response.Length)
    {
      hide U16, U32;
      if response.Length < 8 {
        return E_NOT_OK, 0;
      }
      WriteU16(response, 0, clientId);
      ghost var head := response[0..2];
      WriteU32(response, 2, uptimeMs);
      ghost var middle := response[2..6];
      response[6], response[7] := PROTOCOL_VERSION, 0;
      assert response[0..2] == head && response[2..6] == middle;
      assert response[..8] == response[0..2] + response[2..6] + [response[6], response[7]];
      return E_OK, 8;
    }

    static method AppendService(response: array<u8>, offset: nat, s: Service)
      requires 2 <= offset && offset + 6 <= response.Length
      modifies response
      ensures response[2..offset + 6] == old(response[2..offset]) + ServiceBytes(s)
    {
      hide ServiceBytes;
      WriteService(response, offset, s);
      assert response[2..offset] == old(response[2..offset]);
      assert response[2..offset + 6] == response[2..offset] + response[offset..offset + 6];
    }

    static method WriteService(response: array<u8>, at: nat, s: Service)
      requires at + 6 <= response.Length
      modifies response
      ensures response[at..at + 6] == ServiceBytes(s)
      ensures forall k :: 0 <= k < response.Length && !(at <= k < at + 6) ==> response[k] == old(response[k])
    {
      hide U16;
      WriteU16(response, at, s.serviceId);
      response[at + 2], response[at + 3] := s.major, s.minor;
      response[at + 4] := if s.authRequired then 1 else 0;
      response[at + 5] := if s.ready then 1 else 0;
      var b := response[at..at + 6];
      assert b[0..2] == U16(s.serviceId);
      assert b == b[0..2] + [b[2], b[3], b[4], b[5]];
    }
  }

  lemma DtcsFittingIs(n: nat, capacity: nat, k: nat)
    requires k <= n && 2 + 16 * k <= capacity && (k == n || 2 + 16 * (k + 1) > capacity)
    ensures DtcsFitting(n, capacity) == k
  {
  }

  lemma ServicesFittingIs(n: nat, capacity: nat, k: nat)
    requires k <= n && 2 + 6 * k <= capacity && (k == n || 2 + 6 * (k + 1) > capacity)
    ensures ServicesFitting(n, capacity) == k
  {
  }

  lemma DtcParts(b: Bytes, d: Dtc)
    requires |b| == 16 && b[0..2] == U16(d.code) && b[2] == d.severity && b[3] == Flag(d.active)
    requires b[4..8] == U32(d.occurrences) && b[8..12] == U32(d.firstSeenMs) && b[12..16] == U32(d.lastSeenMs)
    ensures b == DtcBytes(d)
  {
    hide U16, U32;
    assert b == b[0..2] + [b[2], b[3]] + b[4..8] + b[8..12] + b[12..16];
  }

  lemma EmptyList(s: seq<Dtc>)
    ensures DtcList(s[..0]) == []
  {
  }

  lemma EmptyServices(s: seq<Service>)
    ensures ServiceList(s[..0]) == []
  {
  }

  lemma DtcListSnoc(s: seq<Dtc>, k: nat)
    requires k < |s|
    ensures DtcList(s[..k + 1]) == DtcList(s[..k]) + DtcBytes(s[k])
  {
    assert s[..k + 1][..k] == s[..k];
  }

  lemma ServiceListSnoc(s: seq<Service>, k: nat)
    requires k < |s|
    ensures ServiceList(s[..k + 1]) == ServiceList(s[..k]) + ServiceBytes(s[k])
  {
    assert s[..k + 1][..k] == s[..k];
  }

  lemma EmptyCounters(counters: Frame.Counters)
    ensures CounterList(counters[..0]) == []
  {
  }

  lemma CounterListSnoc(s: seq<u32>, k: nat)
    requires k < |s|
    ensures CounterList(s[..k + 1]) == CounterList(s[..k]) + U32(s[k])
  {
    assert s[..k + 1][..k] == s[..k];
  }

  // ------------------------------------------------------------------- the scanner

  function ReadDtc(d: Bytes, at: nat): DeviceDtc
    requires at + 16 <= |d|
  {
    DeviceDtc(ReadU16(d, at), d[at + 2], d[at + 3], ReadU32(d, at + 4), ReadU32(d, at + 8), ReadU32(d, at + 12))
  }

  function ReadService(d: Bytes, at: nat): Service
    requires at + 6 <= |d|
  {
    Service(ReadU16(d, at), d[at + 2], d[at + 3], d[at + 4] != 0, d[at + 5] != 0)
  }

  /** The first `k` records of a list. */
  function ReadDtcs(d: Bytes, k: nat): (r: seq<DeviceDtc>)
    requires 2 + 16 * k <= |d|
    ensures |r| == k
  {
    if k == 0 then [] else ReadDtcs(d, k - 1) + [ReadDtc(d, 2 + 16 * (k - 1))]
  }

  function ReadServices(d: Bytes, k: nat): (r: seq<Service>)
    requires 2 + 6 * k <= |d|
    ensures |r| == k
  {
    if k == 0 then [] else ReadServices(d, k - 1) + [ReadService(d, 2 + 6 * (k - 1))]
  }

  function ReadCounters(d: Bytes, k: nat): (r: seq<u32>)
    requires 4 * k <= |d|
    ensures |r| == k
  {
    if k == 0 then [] else ReadCounters(d, k - 1) + [ReadU32(d, 4 * (k - 1))]
  }

  /** A device as the scanner knows it; each callback leaves it alone unless the answer is
      usable. */
  class ScannedDevice {
    var dtcs: seq<DeviceDtc>
    var services: seq<Service>
    var counters: seq<u32>
    var countersReceived: bool
    var info: DeviceInfo
    var infoReceived: bool

    constructor ()
      ensures dtcs == [] && services == [] && counters == seq(9, _ => 0) && !countersReceived
      ensures info == DeviceInfo(0, 0, 0) && !infoReceived
    {
      dtcs, services, counters, countersReceived := [], [], seq(9, _ => 0), false;
      info, infoReceived := DeviceInfo(0, 0, 0), false;
    }

    method OnDtcs(rc: u8, payload: Bytes)
      modifies this`dtcs
      ensures dtcs == if rc != E_OK || |payload| < 2 then old(dtcs)
        else ReadDtcs(payload, DtcsFitting(ReadU16(payload, 0), |payload|))
    {
      hide ReadDtc;
      if rc != E_OK || |payload| < 2 {
        return;
      }
      var count := ReadU16(payload, 0);
      dtcs := [];
      var offset, i := 2, 0;
      while i < count && offset + 16 <= |payload|
        invariant i <= count && offset == 2 + 16 * i <= |payload|
        invariant dtcs == ReadDtcs(payload, i)
      {
        dtcs := dtcs + [ReadDtc(payload, offset)];
        offset, i := offset + 16, i + 1;
      }
    }

    method OnServiceList(rc: u8, payload: Bytes)
      modifies this`services
      ensures services == if rc != E_OK || |payload| < 2 then old(services)
        else ReadServices(payload, ServicesFitting(ReadU16(payload, 0), |payload|))
    {
      hide ReadService;
      if rc != E_OK || |payload| < 2 {
        return;
      }
      var count := ReadU16(payload, 0);
      services := [];
      var offset, i := 2, 0;
      while i < count && offset + 6 <= |payload|
        invariant i <= count && offset == 2 + 6 * i <= |payload|
        invariant services == ReadServices(payload, i)
      {
        services := services + [ReadService(payload, offset)];
        offset, i := offset + 6, i + 1;
      }
    }

    method OnCounters(rc: u8, payload: Bytes)
      requires |counters| == 9
      modifies this`counters, this`countersReceived
      ensures counters == if rc != E_OK || |payload| < 36 then old(counters) else ReadCounters(payload, 9)
      ensures countersReceived == (old(countersReceived) || (rc == E_OK && |payload| >= 36))
    {
      hide ReadU32;
      if rc != E_OK || |payload| < 36 {
        return;
      }
      for i := 0 to 9
        invariant |counters| == 9 && counters[..i] == ReadCounters(payload, i)
      {
        counters := counters[i := ReadU32(payload, 4 * i)];
        assert counters[..i + 1] == counters[..i] + [ReadU32(payload, 4 * i)];
      }
      assert counters[..9] == counters;
      countersReceived := true;
    }

    method OnDeviceInfo(rc: u8, payload: Bytes)
      modifies this`info, this`infoReceived
      ensures info == if rc != E_OK || |payload| < 8 then old(info)
        else DeviceInfo(ReadU16(payload, 0), ReadU32(payload, 2), payload[6])
      ensures infoReceived == (old(infoReceived) || (rc == E_OK && |payload| >= 8))
    {
      if rc == E_OK && |payload| >= 8 {
        info := DeviceInfo(ReadU16(payload, 0), ReadU32(payload, 2), payload[6]);
        infoReceived := true;
      }
    }
  }

  // ------------------------------------------------------------------- round trips

  /** What the scanner makes of one trouble code. */
  function Shown(d: Dtc): DeviceDtc {
    DeviceDtc(d.code, d.severity, Flag(d.active), d.occurrences, d.firstSeenMs, d.lastSeenMs)
  }

  function ShownAll(s: seq<Dtc>): (r: seq<DeviceDtc>)
    ensures |r| == |s|
  {
    seq(|s|, i requires 0 <= i < |s| => Shown(s[i]))
  }

  lemma SliceOfSlice(d: Bytes, at: nat, n: nat, i: nat, j: nat)
    requires at + n <= |d| && i <= j <= n
    ensures d[at..at + n][i..j] == d[at + i..at + j]
  {
    var a, b := d[at..at + n][i..j], d[at + i..at + j];
    assert |a| == |b|;
    forall k | 0 <= k < |a|
      ensures a[k] == b[k]
    {
      assert a[k] == d[at..at + n][i + k] == d[at + (i + k)];
    }
  }

  lemma DtcRoundTrip(x: Dtc, d: Bytes, at: nat)
    requires at + 16 <= |d| && d[at..at + 16] == DtcBytes(x)
    ensures ReadDtc(d, at) == Shown(x)
  {
    hide U16, U32, ReadU16, ReadU32;
    var b := d[at..at + 16];
    assert b[0..2] == U16(x.code) && b[4..8] == U32(x.occurrences) && b[8..12] == U32(x.firstSeenMs)
      && b[12..16] == U32(x.lastSeenMs);
    SliceOfSlice(d, at, 16, 0, 2);
    SliceOfSlice(d, at, 16, 4, 8);
    SliceOfSlice(d, at, 16, 8, 12);
    SliceOfSlice(d, at, 16, 12, 16);
    assert d[at + 2] == b[2] && d[at + 3] == b[3];
    U16RoundTrip(x.code, d, at);
    U32RoundTrip(x.occurrences, d, at + 4);
    U32RoundTrip(x.firstSeenMs, d, at + 8);
    U32RoundTrip(x.lastSeenMs, d, at + 12);
  }

  lemma ServiceRoundTrip(x: Service, d: Bytes, at: nat)
    requires at + 6 <= |d| && d[at..at + 6] == ServiceBytes(x)
    ensures ReadService(d, at) == x
  {
    hide U16, ReadU16;
    var b := d[at..at + 6];
    assert d[at..at + 2] == b[0..2] == U16(x.serviceId);
    assert d[at + 2] == b[2] && d[at + 3] == b[3] && d[at + 4] == b[4] && d[at + 5] == b[5];
    U16RoundTrip(x.serviceId, d, at);
  }

  lemma {:induction false} DtcListRead(s: seq<Dtc>, head: Bytes, k: nat)
    requires |head| == 2 && k <= |s|
    ensures ReadDtcs(head + DtcList(s), k) == ShownAll(s[..k])
    decreases k
  {
    hide DtcBytes, ReadDtc, Shown;
    if k > 0 {
      DtcListRead(s, head, k - 1);
      var d := head + DtcList(s);
      DtcListAt(s, k - 1);
      assert d[2 + 16 * (k - 1)..2 + 16 * k] == DtcList(s)[16 * (k - 1)..16 * k];
      DtcRoundTrip(s[k - 1], d, 2 + 16 * (k - 1));
      assert ShownAll(s[..k]) == ShownAll(s[..k - 1]) + [Shown(s[k - 1])];
    }
  }

  lemma PrefixSlice(a: Bytes, b: Bytes, i: nat, j: nat)
    requires i <= j <= |a|
    ensures (a + b)[i..j] == a[i..j]
  {
  }

  lemma {:induction false} DtcListAt(s: seq<Dtc>, i: nat)
    requires i < |s|
    ensures DtcList(s)[16 * i..16 * (i + 1)] == DtcBytes(s[i])
    decreases |s|
  {
    hide DtcBytes;
    var n := |s| - 1;
    if i < n {
      DtcListAt(s[..n], i);
      PrefixSlice(DtcList(s[..n]), DtcBytes(s[n]), 16 * i, 16 * (i + 1));
    }
  }

  lemma {:induction false} ServiceListRead(s: seq<Service>, head: Bytes, k: nat)
    requires |head| == 2 && k <= |s|
    ensures ReadServices(head + ServiceList(s), k) == s[..k]
    decreases k
  {
    hide ServiceBytes, ReadService;
    if k > 0 {
      ServiceListRead(s, head, k - 1);
      var d := head + ServiceList(s);
      ServiceListAt(s, k - 1);
      assert d[2 + 6 * (k - 1)..2 + 6 * k] == ServiceList(s)[6 * (k - 1)..6 * k];
      ServiceRoundTrip(s[k - 1], d, 2 + 6 * (k - 1));
      assert s[..k] == s[..k - 1] + [s[k - 1]];
    }
  }

  lemma {:induction false} ServiceListAt(s: seq<Service>, i: nat)
    requires i < |s|
    ensures ServiceList(s)[6 * i..6 * (i + 1)] == ServiceBytes(s[i])
    decreases |s|
  {
    hide ServiceBytes;
    var n := |s| - 1;
    if i < n {
      ServiceListAt(s[..n], i);
      PrefixSlice(ServiceList(s[..n]), ServiceBytes(s[n]), 6 * i, 6 * (i + 1));
    }
  }

  /** Asking for the trouble codes and reading the answer gives the table's entries, field
      for field: the longest prefix that fits the buffer, up to the wrap of the 16-bit
      count. */
  lemma DtcsReadBack(s: seq<Dtc>, capacity: nat)
    requires capacity >= 2
    ensures var (rc, d) := EncodeDtcs(s, capacity);
      var k := DtcsFitting(|s|, capacity);
      && rc == E_OK && 2 <= |d| <= capacity
      && ReadDtcs(d, DtcsFitting(ReadU16(d, 0), |d|)) == ShownAll(s[..k % TWO_16])
  {
    hide DtcBytes, U16, ReadU16, ReadDtc;
    var k := DtcsFitting(|s|, capacity);
    var head := U16(k % TWO_16);
    var d := head + DtcList(s[..k]);
    assert d[0..2] == head;
    U16RoundTrip(k % TWO_16, d, 0);
    DtcListRead(s[..k], head, k % TWO_16);
    assert s[..k][..k % TWO_16] == s[..k % TWO_16];
  }

  /** The response buffer holds `MaxPayloadSize` bytes, which the program limits to 8192: the
      scanner gets the longest prefix that fits, whole. */
  lemma WholePrefixRead(s: seq<Dtc>, capacity: nat)
    requires 2 <= capacity <= 8192
    ensures var (rc, d) := EncodeDtcs(s, capacity);
      rc == E_OK && ReadDtcs(d, DtcsFitting(ReadU16(d, 0), |d|)) == ShownAll(s[..DtcsFitting(|s|, capacity)])
  {
    hide ReadDtcs, EncodeDtcs, ReadU16, Shown;
    DtcsReadBack(s, capacity);
  }

  lemma WholeServicesRead(s: seq<Service>, capacity: nat)
    requires 2 <= capacity <= 8192
    ensures var (rc, d) := EncodeServices(s, capacity);
      rc == E_OK && ReadServices(d, ServicesFitting(ReadU16(d, 0), |d|)) == s[..ServicesFitting(|s|, capacity)]
  {
    hide ReadServices, EncodeServices, ReadU16;
    ServicesReadBack(s, capacity);
  }

  /** Only a larger buffer could make the count wrap, and then exactly from 65536 records on. */
  lemma CountSuffices(s: seq<Dtc>, capacity: nat)
    requires capacity >= 2
    ensures var d := EncodeDtcs(s, capacity).1;
      var k := DtcsFitting(|s|, capacity);
      ReadDtcs(d, DtcsFitting(ReadU16(d, 0), |d|)) == ShownAll(s[..k]) <==> k < TWO_16
  {
    hide ReadDtcs, EncodeDtcs, ReadU16, Shown, DtcsFitting;
    DtcsReadBack(s, capacity);
  }

  lemma ServicesReadBack(s: seq<Service>, capacity: nat)
    requires capacity >= 2
    ensures var (rc, d) := EncodeServices(s, capacity);
      var k := ServicesFitting(|s|, capacity);
      && rc == E_OK && 2 <= |d| <= capacity
      && ReadServices(d, ServicesFitting(ReadU16(d, 0), |d|)) == s[..k % TWO_16]
  {
    hide ServiceBytes, U16, ReadU16, ReadService;
    var k := ServicesFitting(|s|, capacity);
    var head := U16(k % TWO_16);
    var d := head + ServiceList(s[..k]);
    assert d[0..2] == head;
    U16RoundTrip(k % TWO_16, d, 0);
    ServiceListRead(s[..k], head, k % TWO_16);
    assert s[..k][..k % TWO_16] == s[..k % TWO_16];
  }

  lemma {:induction false} CounterListRead(s: seq<u32>, k: nat)
    requires k <= |s|
    ensures ReadCounters(CounterList(s), k) == s[..k]
    decreases k
  {
    hide U32, ReadU32;
    if k > 0 {
      CounterListRead(s, k - 1);
      CounterListAt(s, k - 1);
      U32RoundTrip(s[k - 1], CounterList(s), 4 * (k - 1));
    }
  }

  lemma {:induction false} CounterListAt(s: seq<u32>, i: nat)
    requires i < |s|
    ensures CounterList(s)[4 * i..4 * i + 4] == U32(s[i])
    decreases |s|
  {
    hide U32;
    var n := |s| - 1;
    if i < n {
      CounterListAt(s[..n], i);
      PrefixSlice(CounterList(s[..n]), U32(s[n]), 4 * i, 4 * i + 4);
    }
  }

  /** All nine counters come back, or the answer is refused. */
  lemma CountersReadBack(counters: Frame.Counters, capacity: nat)
    ensures var (rc, d) := EncodeCounters(counters, capacity);
      && (rc == E_OK <==> capacity >= 36)
      && (rc == E_OK ==> |d| == 36 && ReadCounters(d, 9) == counters)
  {
    CounterListRead(counters, 9);
    assert counters[..9] == counters;
  }

  /** A clear request: its first two bytes name a code, which exactly is forgotten, or 0xFFFF for
      all of them. It answers 0, or 1 for a code that is not held, or 7 for a payload too short,
      and then nothing changes. */
  lemma ClearForgets(s: seq<Dtc>, payload: Bytes, c: u16)
    requires WellFormed(s)
    ensures var (s', rc) := ClearRequest(s, payload);
      if |payload| < 2 then rc == 7 && s' == s
      else
        var code: u16 := 256 * (payload[0] as int) + payload[1];
        && rc == (if code == 0xFFFF || DtcOf(s, code).Some? then 0 else 1)
        && (rc == 1 ==> s' == s) && WellFormed(s')
        && DtcOf(s', c) == if code == 0xFFFF || code == c then None else DtcOf(s, c)
  {
    hide DtcOf, WellFormed;
    EmptyTable(c);
    if |payload| >= 2 {
      ClearRefines(s, ReadU16(payload, 0));
      NothingCleared(s, ReadU16(payload, 0));
    }
  }

  lemma NothingCleared(s: seq<Dtc>, code: u16)
    ensures !Clear(s, code).1 ==> Clear(s, code).0 == s
  {
  }

  /** Without room for its fixed part, each query answers 1 and nothing else. */
  lemma NoRoomRefused(s: seq<Dtc>, services: seq<Service>, counters: Frame.Counters, clientId: u16, uptimeMs: u32,
                      capacity: nat)
    ensures capacity < 2 ==> EncodeDtcs(s, capacity) == (1, []) && EncodeServices(services, capacity) == (1, [])
    ensures capacity < 36 <==> EncodeCounters(counters, capacity) == (1, [])
    ensures capacity < 8 <==> EncodeInfo(clientId, uptimeMs, capacity) == (1, [])
    ensures capacity >= 2 ==> EncodeDtcs(s, capacity).0 == 0 && EncodeServices(services, capacity).0 == 0
  {
  }

  lemma InfoReadBack(clientId: u16, uptimeMs: u32, capacity: nat)
    requires capacity >= 8
    ensures var d := EncodeInfo(clientId, uptimeMs, capacity).1;
      |d| == 8 && ReadU16(d, 0) == clientId && ReadU32(d, 2) == uptimeMs && d[6] == PROTOCOL_VERSION
  {
    hide U16, U32, ReadU16, ReadU32;
    var d := EncodeInfo(clientId, uptimeMs, capacity).1;
    assert d[0..2] == U16(clientId) && d[2..6] == U32(uptimeMs);
    U16RoundTrip(clientId, d, 0);
    U32RoundTrip(uptimeMs, d, 2);
  }
}
