/** rust_proxy/src/main.rs: the task that renews the server certificate, with a failure possible at
    every file operation. The pin of a key (`sha256/` and a digest of its public key) is whatever
    `pinOf` says. */
module CertRenewal {
  import opened Basics

  datatype Key = Key(material: string)

  /** What a certificate file holds: nothing usable, or a certificate over a key with its time of
      validity; `ours` says that its names are the ones the proxy writes. */
  datatype CertFile = Garbled | Cert(key: Key, begins: real, expires: real, ours: bool)

  /** A TLS configuration serves one certificate with one private key. */
  datatype TlsConfig = TlsConfig(certified: Key, private: Key)

  /** How a file write ends: without touching the file, with part of the contents, complete but
      reported as failed, or well. */
  datatype Write = Untouched | Torn(bytes: nat) | Late | Done

  /** All that can happen during one tick. `keySeen` is what `Path::exists` says of the key file. */
  datatype Tick = Tick(
    now: real,
    certReads: bool,
    dirsReady: bool,
    keySeen: bool,
    keyReads: bool,
    generated: Option<Key>,
    keyWrite: Write,
    signs: bool,
    validity: real,
    certWrite: Write,
    pinReads: bool,
    pinWrite: Write,
    configReads: bool,
    lockHealthy: bool)

  /** The three files, the configuration in use, and all configurations ever put in use. */
  datatype Files = Files(
    key: Option<Key>,
    cert: CertFile,
    pin: string,
    config: TlsConfig,
    installed: seq<TlsConfig>)

  function PinLine(pinOf: Key -> string, key: Key): string { pinOf(key) + "\n" }

  // ----------------------------------------------------------------- what one tick does

  /** `check_cert_expiry`. */
  predicate StillValid(f: Files, t: Tick) {
    t.certReads && f.cert.Cert? && f.cert.ours && f.cert.begins <= t.now <= f.cert.expires
  }

  /** The key file while a certificate is generated: a key that is seen is never written. */
  function KeyAfter(f: Files, t: Tick): Option<Key> {
    if !t.dirsReady || t.keySeen || t.generated.None? then f.key
    else
      match t.keyWrite
      case Untouched => f.key
      case Torn(_) => None
      case Late => t.generated
      case Done => t.generated
  }

  /** The key pair the new certificate is for, if it gets that far. */
  function KeyPair(f: Files, t: Tick): Option<Key> {
    if !t.dirsReady then None
    else if t.keySeen then (if t.keyReads then f.key else None)
    else if t.keyWrite.Done? then t.generated
    else None
  }

  /** The certificate file, and whether `generate_self_signed_cert` succeeds. */
  function CertAfter(f: Files, t: Tick): (CertFile, bool) {
    match KeyPair(f, t)
    case None => (f.cert, false)
    case Some(key) =>
      if !t.signs then (f.cert, false)
      else
        match t.certWrite
        case Untouched => (f.cert, false)
        case Torn(_) => (Garbled, false)
        case Late => (Cert(key, t.now, t.now + t.validity, true), false)
        case Done => (Cert(key, t.now, t.now + t.validity, true), true)
  }

  function TakeAtMost(s: string, n: nat): string { if n <= |s| then s[..n] else s }

  /** The pin file, and whether `write_server_spki_pin` succeeds on the new certificate. */
  function PinAfter(pinOf: Key -> string, pin: string, key: Key, t: Tick): (string, bool) {
    if !t.pinReads then (pin, false)
    else
      match t.pinWrite
      case Untouched => (pin, false)
      case Torn(n) => (TakeAtMost(PinLine(pinOf, key), n), false)
      case Late => (PinLine(pinOf, key), false)
      case Done => (PinLine(pinOf, key), true)
  }

  /** One turn of the loop. */
  function AfterTick(pinOf: Key -> string, f: Files, t: Tick): Files {
    if StillValid(f, t) then f
    else
      var f1 := f.(key := KeyAfter(f, t), cert := CertAfter(f, t).0);
      if !CertAfter(f, t).1 || !f1.cert.Cert? then f1
      else
        var (pin, pinned) := PinAfter(pinOf, f.pin, f1.cert.key, t);
        var f2 := f1.(pin := pin);
        if !pinned || !t.configReads || !t.lockHealthy || f2.key.None? then f2
        else
          var config := TlsConfig(f2.cert.key, f2.key.value);
          f2.(config := config, installed := f2.installed + [config])
  }

  function AfterTicks(pinOf: Key -> string, f: Files, ticks: seq<Tick>): Files {
    if ticks == [] then f
    else AfterTick(pinOf, AfterTicks(pinOf, f, ticks[..|ticks| - 1]), ticks[|ticks| - 1])
  }

  // ------------------------------------------------------------------------ the task

  class Renewal {
    const pinOf: Key -> string
    var keyFile: Option<Key>
    var certFile: CertFile
    var pinFile: string
    var config: TlsConfig
    ghost var installed: seq<TlsConfig>

    ghost function View(): Files
      reads this
    {
      Files(keyFile, certFile, pinFile, config, installed)
    }

    /** `generate_self_signed_cert`. */
    method Generate(t: Tick) returns (ok: bool)
      modifies this`keyFile, this`certFile
      ensures View() == old(View()).(key := KeyAfter(old(View()), t), cert := CertAfter(old(View()), t).0)
      ensures ok == CertAfter(old(View()), t).1
    {
      if !t.dirsReady {
        return false;
      }
      var pair: Key;
      if t.keySeen {
        if !t.keyReads || keyFile.None? {
          return false;
        }
        pair := keyFile.value;
      } else {
        if t.generated.None? {
          return false;
        }
        pair := t.generated.value;
        match t.keyWrite {
          case Untouched => return false;
          case Torn(_) =>
            keyFile := None;
            return false;
          case Late =>
            keyFile := Some(pair);
            return false;
          case Done => keyFile := Some(pair);
        }
      }
      if !t.signs {
        return false;
      }
      match t.certWrite {
        case Untouched => ok := false;
        case Torn(_) => certFile, ok := Garbled, false;
        case Late => certFile, ok := Cert(pair, t.now, t.now + t.validity, true), false;
        case Done => certFile, ok := Cert(pair, t.now, t.now + t.validity, true), true;
      }
    }

    /** `write_server_spki_pin`. */
    method WritePin(key: Key, t: Tick) returns (ok: bool)
      modifies this`pinFile
      ensures (pinFile, ok) == PinAfter(pinOf, old(pinFile), key, t)
    {
      if !t.pinReads {
        return false;
      }
      var line := PinLine(pinOf, key);
      match t.pinWrite {
        case Untouched => ok := false;
        case Torn(n) => pinFile, ok := TakeAtMost(line, n), false;
        case Late => pinFile, ok := line, false;
        case Done => pinFile, ok := line, true;
      }
    }

    /** One turn of the loop in `cert_renewal_task`. */
    method Check(t: Tick)
      modifies this
      ensures View() == AfterTick(pinOf, old(View()), t)
    {
      if t.certReads && certFile.Cert? && certFile.ours && certFile.begins <= t.now <= certFile.expires {
        return;
      }
      var generated := Generate(t);
      if !generated || certFile.Garbled? {
        return;
      }
      var pinned := WritePin(certFile.key, t);
      if !pinned || !t.configReads || keyFile.None? || !t.lockHealthy {
        return;
      }
      config := TlsConfig(certFile.key, keyFile.value);
      installed := installed + [config];
    }

    /** The task over any number of ticks. */
    method Work(ticks: seq<Tick>)
      modifies this
      ensures View() == AfterTicks(pinOf, old(View()), ticks)
    {
      assert ticks[..0] == [];
      for i := 0 to |ticks|
        invariant View() == AfterTicks(pinOf, old(View()), ticks[..i])
      {
        Check(ticks[i]);
        assert ticks[..i + 1][..i] == ticks[..i];
      }
      assert ticks[..|ticks|] == ticks;
    }
  }

  // ------------------------------------------------------------------------ theorems

  /** Everything the server shows belongs to `key`; the pin file may have lost its end. */
  predicate Shows(pinOf: Key -> string, f: Files, key: Key) {
    && f.key == Some(key)
    && (f.cert.Cert? ==> f.cert.key == key)
    && f.pin <= PinLine(pinOf, key)
    && f.config == TlsConfig(key, key)
    && forall i | 0 <= i < |f.installed| :: f.installed[i] == TlsConfig(key, key)
  }

  /** A tick that overwrites a key file it was told is not there. */
  predicate Overwrites(f: Files, t: Tick) {
    !StillValid(f, t) && t.dirsReady && !t.keySeen && t.generated.Some? && !t.keyWrite.Untouched?
  }

  /** Some tick of the run does so. */
  predicate Overwritten(pinOf: Key -> string, f: Files, ticks: seq<Tick>) {
    exists i :: 0 <= i < |ticks| && Overwrites(AfterTicks(pinOf, f, ticks[..i]), ticks[i])
  }

  lemma TickKeeps(pinOf: Key -> string, f: Files, t: Tick, key: Key)
    requires Shows(pinOf, f, key) && !Overwrites(f, t)
    ensures Shows(pinOf, AfterTick(pinOf, f, t), key)
  {
  }

  /** A key once replaced never comes back, as generated keys are new. */
  lemma TickLoses(pinOf: Key -> string, f: Files, t: Tick, key: Key)
    requires t.generated != Some(key) && (f.key != Some(key) || Overwrites(f, t))
    ensures AfterTick(pinOf, f, t).key != Some(key)
  {
  }

  /** Renewal keeps the identity: over any number of ticks, with a failure at any stage of any of
      them, the key file, the certificate, the pin file and every TLS configuration ever installed
      belong to the key the server started with -- if and only if no tick that renews is told by
      the file system that the key file does not exist and goes on to write a new one. */
  lemma {:induction false} IdentityIsKept(pinOf: Key -> string, f: Files, ticks: seq<Tick>, key: Key)
    requires Shows(pinOf, f, key)
    requires forall i | 0 <= i < |ticks| :: ticks[i].generated != Some(key)
    ensures Shows(pinOf, AfterTicks(pinOf, f, ticks), key) <==> !Overwritten(pinOf, f, ticks)
    ensures AfterTicks(pinOf, f, ticks).key == Some(key) <==> !Overwritten(pinOf, f, ticks)
  {
    if ticks != [] {
      var n := |ticks| - 1;
      IdentityIsKept(pinOf, f, ticks[..n], key);
      OverwrittenGrows(pinOf, f, ticks);
      var before := AfterTicks(pinOf, f, ticks[..n]);
      if Overwritten(pinOf, f, ticks) {
        TickLoses(pinOf, before, ticks[n], key);
      } else {
        TickKeeps(pinOf, before, ticks[n], key);
      }
    }
  }

  lemma OverwrittenGrows(pinOf: Key -> string, f: Files, ticks: seq<Tick>)
    requires ticks != []
    ensures var n := |ticks| - 1;
      Overwritten(pinOf, f, ticks) <==>
        Overwritten(pinOf, f, ticks[..n]) || Overwrites(AfterTicks(pinOf, f, ticks[..n]), ticks[n])
  {
    hide Overwrites, AfterTick;
    var n := |ticks| - 1;
    forall i | 0 <= i < n
      ensures ticks[..n][..i] == ticks[..i]
    {
    }
  }

  /** A tick installs a configuration if and only if the certificate is no longer valid and every stage
      of its renewal succeeds; the new certificate is then over the key in the key file and valid
      from now on. While the certificate is valid, a tick changes nothing. */
  lemma RenewalInstalls(pinOf: Key -> string, f: Files, t: Tick)
    ensures var f' := AfterTick(pinOf, f, t);
      var valid := t.certReads && f.cert.Cert? && f.cert.ours && f.cert.begins <= t.now <= f.cert.expires;
      && (valid ==> f' == f)
      && (f'.installed != f.installed <==>
            && !valid && t.dirsReady
            && (if t.keySeen then t.keyReads && f.key.Some? else t.generated.Some? && t.keyWrite.Done?)
            && t.signs && t.certWrite.Done? && t.pinReads && t.pinWrite.Done? && t.configReads && t.lockHealthy)
      && (f'.installed != f.installed ==>
            var key := if t.keySeen then f.key.value else t.generated.value;
            && f'.installed == f.installed + [TlsConfig(key, key)] && f'.config == TlsConfig(key, key)
            && f'.cert == Cert(key, t.now, t.now + t.validity, true) && f'.key == Some(key)
            && f'.pin == pinOf(key) + "\n")
  {
  }

  /** Whatever happens, a configuration that a tick installs serves a certificate with its own key,
      and the pin file announces that key. */
  lemma InstalledIsAnnounced(pinOf: Key -> string, f: Files, t: Tick)
    ensures var f' := AfterTick(pinOf, f, t);
      f'.installed != f.installed ==>
        && f'.config.certified == f'.config.private
        && f'.key == Some(f'.config.private)
        && f'.pin == PinLine(pinOf, f'.config.certified)
        && f'.installed == f.installed + [f'.config]
  {
  }

  /** The tick gets as far as writing the pin file, well or not. */
  predicate WritesPin(f: Files, t: Tick) {
    !StillValid(f, t) && CertAfter(f, t).1 && t.pinReads && !t.pinWrite.Untouched?
  }

  /** The write stops before the end of the line. */
  predicate Cuts(pinOf: Key -> string, t: Tick, key: Key) {
    t.pinWrite.Torn? && t.pinWrite.bytes < |PinLine(pinOf, key)|
  }

  predicate WritesPinAt(pinOf: Key -> string, f: Files, ticks: seq<Tick>, i: nat)
    requires i < |ticks|
  {
    WritesPin(AfterTicks(pinOf, f, ticks[..i]), ticks[i])
  }

  /** Tick `i` cuts the pin file short and no later tick writes it whole. */
  predicate StaysCut(pinOf: Key -> string, f: Files, ticks: seq<Tick>, key: Key, i: nat)
    requires i < |ticks|
  {
    && WritesPinAt(pinOf, f, ticks, i) && Cuts(pinOf, ticks[i], key)
    && forall k | i < k < |ticks| :: WritesPinAt(pinOf, f, ticks, k) ==> Cuts(pinOf, ticks[k], key)
  }

  lemma PinAfterTick(pinOf: Key -> string, f: Files, t: Tick, key: Key)
    requires Shows(pinOf, f, key) && !Overwrites(f, t)
    ensures WritesPin(f, t) ==> (AfterTick(pinOf, f, t).pin == PinLine(pinOf, key) <==> !Cuts(pinOf, t, key))
    ensures !WritesPin(f, t) ==> AfterTick(pinOf, f, t).pin == f.pin
  {
  }

  /** While the key is kept, a pin file that was whole is whole after a run if and only if every pin
      write cut short is followed by one that is not. */
  lemma {:induction false} PinIsWhole(pinOf: Key -> string, f: Files, ticks: seq<Tick>, key: Key)
    requires Shows(pinOf, f, key) && f.pin == PinLine(pinOf, key) && !Overwritten(pinOf, f, ticks)
    ensures Shows(pinOf, AfterTicks(pinOf, f, ticks), key)
    ensures AfterTicks(pinOf, f, ticks).pin == PinLine(pinOf, key) <==>
      forall i | 0 <= i < |ticks| :: !StaysCut(pinOf, f, ticks, key, i)
  {
    hide AfterTick, Shows, Overwrites, WritesPin, Cuts;
    if ticks != [] {
      var n := |ticks| - 1;
      var before := AfterTicks(pinOf, f, ticks[..n]);
      OverwrittenGrows(pinOf, f, ticks);
      PinIsWhole(pinOf, f, ticks[..n], key);
      TickKeeps(pinOf, before, ticks[n], key);
      PinAfterTick(pinOf, before, ticks[n], key);
      forall i | 0 <= i < n
        ensures StaysCut(pinOf, f, ticks, key, i) <==>
          StaysCut(pinOf, f, ticks[..n], key, i) && (WritesPin(before, ticks[n]) ==> Cuts(pinOf, ticks[n], key))
      {
        CutGrows(pinOf, f, ticks, key, i);
      }
      LastCut(pinOf, f, ticks, key);
    }
  }

  lemma LastCut(pinOf: Key -> string, f: Files, ticks: seq<Tick>, key: Key)
    requires ticks != []
    ensures var n := |ticks| - 1;
      StaysCut(pinOf, f, ticks, key, n) <==>
        WritesPin(AfterTicks(pinOf, f, ticks[..n]), ticks[n]) && Cuts(pinOf, ticks[n], key)
  {
    hide AfterTicks, WritesPin, Cuts;
  }

  lemma CutGrows(pinOf: Key -> string, f: Files, ticks: seq<Tick>, key: Key, i: nat)
    requires i < |ticks| - 1
    ensures var n := |ticks| - 1;
      StaysCut(pinOf, f, ticks, key, i) <==>
        && StaysCut(pinOf, f, ticks[..n], key, i)
        && (WritesPin(AfterTicks(pinOf, f, ticks[..n]), ticks[n]) ==> Cuts(pinOf, ticks[n], key))
  {
    hide AfterTicks, WritesPin, Cuts;
    var n := |ticks| - 1;
    forall k | 0 <= k < n
      ensures WritesPinAt(pinOf, f, ticks, k) == WritesPinAt(pinOf, f, ticks[..n], k)
    {
      assert ticks[..n][..k] == ticks[..k];
    }
    assert WritesPinAt(pinOf, f, ticks, n) == WritesPin(AfterTicks(pinOf, f, ticks[..n]), ticks[n]);
  }

  /** One tick is enough: the certificate is renewed, the pin write stops before its first byte, and as
      long as the new certificate is valid every later tick leaves the pin file as it is. */
  lemma CutPinStays(pinOf: Key -> string, key: Key, later: seq<Tick>)
    requires forall i | 0 <= i < |later| :: later[i].certReads && 1.0 <= later[i].now <= 3651.0
    ensures
      var f := Files(Some(key), Cert(key, 0.0, 0.5, true), PinLine(pinOf, key), TlsConfig(key, key), []);
      var t := Tick(1.0, true, true, true, true, None, Untouched, true, 3650.0, Done, true, Torn(0), true, true);
      && Shows(pinOf, f, key)
      && AfterTick(pinOf, f, t).pin == ""
      && AfterTicks(pinOf, AfterTick(pinOf, f, t), later).pin != PinLine(pinOf, key)
  {
    var f := Files(Some(key), Cert(key, 0.0, 0.5, true), PinLine(pinOf, key), TlsConfig(key, key), []);
    var t := Tick(1.0, true, true, true, true, None, Untouched, true, 3650.0, Done, true, Torn(0), true, true);
    var f' := AfterTick(pinOf, f, t);
    assert f'.cert == Cert(key, 1.0, 3651.0, true);
    ValidStays(pinOf, f', later);
  }

  lemma {:induction false} ValidStays(pinOf: Key -> string, f: Files, ticks: seq<Tick>)
    requires forall i | 0 <= i < |ticks| :: StillValid(f, ticks[i])
    ensures AfterTicks(pinOf, f, ticks) == f
  {
    if ticks != [] {
      ValidStays(pinOf, f, ticks[..|ticks| - 1]);
    }
  }

  /** One tick is enough: the certificate has expired, the key file is there but is reported absent,
      and the server goes over to a fresh key, pin file included. */
  lemma UnseenKeyIsReplaced(pinOf: Key -> string, before: Key, after: Key)
    requires before != after
    ensures
      var f := Files(Some(before), Cert(before, 0.0, 0.5, true), PinLine(pinOf, before), TlsConfig(before, before), []);
      var t := Tick(1.0, true, true, false, true, Some(after), Done, true, 3650.0, Done, true, Done, true, true);
      && Shows(pinOf, f, before)
      && AfterTick(pinOf, f, t).config == TlsConfig(after, after)
      && AfterTick(pinOf, f, t).pin == PinLine(pinOf, after)
      && !Shows(pinOf, AfterTick(pinOf, f, t), before)
  {
  }
}
