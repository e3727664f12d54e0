/** What a successful step answers (src/server/service/translator.c:139-174,
    src/server/driver/driver_classic.c, driver_pqc.c, skf_adapter.c): stated with the step, the request
    and the device alone.  The parts of a result are cut to the sizes of their fields. */
module Results {
  import opened Common
  import opened CStrings
  import opened Registry
  import opened SequenceText
  import opened Scheduler
  import opened Translator

  function Algorithm(step: Step): string { Clip(step.algorithm, 256) }
  function Payload(payload: string): string { Clip(payload, 1024) }
  function KeyText(req: Request): string { Clip(req.keyRef, 256) }

  /** The step has run on a device of a mock profile. */
  predicate RanMock(d: Device, req: Request, step: Step, payload: string, answer: Option<string>) {
    d.profile != GM3000 && RunOn(d, req, step, payload, answer).Succeeded?
  }

  /** The result is this text, as far as a response holds it. */
  predicate Shows(d: Device, req: Request, step: Step, payload: string, answer: Option<string>, text: string) {
    RunOn(d, req, step, payload, answer).Succeeded? && RunOn(d, req, step, payload, answer).r.result == Clip(text, 2048)
  }

  /** A successful step reports its device and the device's type and profile. */
  lemma DeviceIsReported(d: Device, req: Request, step: Step, payload: string, answer: Option<string>)
    requires RunOn(d, req, step, payload, answer).Succeeded?
    ensures var r := RunOn(d, req, step, payload, answer).r;
      && r.selectedDevice == Clip(d.id, 2048)
      && (d.devType == DevClassic ==> r.backendName == Clip("classic:" + d.profile, 256))
      && (d.devType == DevPqc ==> r.backendName == Clip("pqc:" + d.profile, 256))
  {
    assert "classic" + ":" == "classic:" && "pqc" + ":" == "pqc:";
  }

  /** On a device of the SKF profile the result is the library's. */
  lemma LibraryAnswers(d: Device, req: Request, step: Step, payload: string, answer: Option<string>)
    requires RunOn(d, req, step, payload, answer).Succeeded? && d.profile == GM3000
    ensures answer.Some? && Shows(d, req, step, payload, answer, answer.value)
  {
  }

  /** What the adapter is given. */
  function CallOf(req: Request, step: Step, payload: string): Call {
    Call(step.domain, step.action, Algorithm(step), KeyText(req), Payload(payload), Clip(req.auxPayload, 1024))
  }

  function AdapterText(d: Device, c: Call): Option<string> {
    if d.devType == DevClassic then ClassicAdapter(d, c) else PqcAdapter(d, c)
  }

  /** The step has run on a mock device of this type and its domain is this one. */
  predicate RanFor(d: Device, req: Request, step: Step, payload: string, answer: Option<string>, t: DeviceType, domain: Domain) {
    RanMock(d, req, step, payload, answer) && d.devType == t && step.domain == domain
  }

  lemma AdapterShows(d: Device, req: Request, step: Step, payload: string, answer: Option<string>, text: string)
    requires RanMock(d, req, step, payload, answer) && AdapterText(d, CallOf(req, step, payload)) == Some(text)
    ensures Shows(d, req, step, payload, answer, text)
  {
  }

  // For each domain of each type: the text that an action answers, why the adapter says it, and that
  // it is the result of a step.

  predicate ClassicDeviceText(d: Device, req: Request, step: Step, payload: string, text: string) {
    match step.action
    case ActionGetDeviceInfo => text == "classic-device-info(" + d.id + ")"
    case ActionGenerateRandom => text == "classic-random(" + (if payload == "" then "16" else Payload(payload)) + ")"
    case _ => false
  }

  lemma ClassicDeviceSays(d: Device, req: Request, step: Step, payload: string, c: Call, text: string)
    requires c == CallOf(req, step, payload) && d.devType == DevClassic && step.domain == DomainDevice
    requires ClassicDeviceText(d, req, step, payload, text)
    ensures AdapterText(d, c) == Some(text)
  {
  }

  lemma ClassicDevice(d: Device, req: Request, step: Step, payload: string, answer: Option<string>, text: string)
    requires RanFor(d, req, step, payload, answer, DevClassic, DomainDevice) && ClassicDeviceText(d, req, step, payload, text)
    ensures Shows(d, req, step, payload, answer, text)
  {
    ClassicDeviceSays(d, req, step, payload, CallOf(req, step, payload), text);
    AdapterShows(d, req, step, payload, answer, text);
  }

  predicate ClassicKeyText(d: Device, req: Request, step: Step, payload: string, text: string) {
    match step.action
    case ActionGetPrivateKeyAccess => text == "classic-key-access-ok(" + KeyText(req) + ")"
    case ActionReleasePrivateKeyAccess => text == "classic-key-access-released(" + KeyText(req) + ")"
    case ActionGenerateKeyPair => text == "classic-keypair(" + Algorithm(step) + "," + KeyText(req) + ")"
    case ActionExportPublicKey => text == "classic-export-pub(" + Algorithm(step) + "," + KeyText(req) + ")"
    case ActionImportKey => text == "classic-import-key(" + KeyText(req) + ")"
    case ActionDestroyKey => text == "classic-destroy-key(" + KeyText(req) + ")"
    case _ => false
  }

  lemma ClassicKeySays(d: Device, req: Request, step: Step, payload: string, c: Call, text: string)
    requires c == CallOf(req, step, payload) && d.devType == DevClassic && step.domain == DomainKey
    requires ClassicKeyText(d, req, step, payload, text)
    ensures AdapterText(d, c) == Some(text)
  {
  }

  lemma ClassicKey(d: Device, req: Request, step: Step, payload: string, answer: Option<string>, text: string)
    requires RanFor(d, req, step, payload, answer, DevClassic, DomainKey) && ClassicKeyText(d, req, step, payload, text)
    ensures Shows(d, req, step, payload, answer, text)
  {
    ClassicKeySays(d, req, step, payload, CallOf(req, step, payload), text);
    AdapterShows(d, req, step, payload, answer, text);
  }

  predicate ClassicAsymText(d: Device, req: Request, step: Step, payload: string, text: string) {
    match step.action
    case ActionSign => text == "classic-signature(" + Algorithm(step) + "," + Payload(payload) + ")"
    case ActionVerify => text == "classic-verify-ok(" + Algorithm(step) + "," + Payload(payload) + ")"
    case ActionEncrypt => text == "classic-cipher(" + Algorithm(step) + "," + Payload(payload) + ")"
    case ActionDecrypt => text == "classic-plain(" + Algorithm(step) + "," + Payload(payload) + ")"
    case _ => false
  }

  lemma ClassicAsymSays(d: Device, req: Request, step: Step, payload: string, c: Call, text: string)
    requires c == CallOf(req, step, payload) && d.devType == DevClassic && step.domain == DomainAsym
    requires ClassicAsymText(d, req, step, payload, text)
    ensures AdapterText(d, c) == Some(text)
  {
  }

  lemma ClassicAsym(d: Device, req: Request, step: Step, payload: string, answer: Option<string>, text: string)
    requires RanFor(d, req, step, payload, answer, DevClassic, DomainAsym) && ClassicAsymText(d, req, step, payload, text)
    ensures Shows(d, req, step, payload, answer, text)
  {
    ClassicAsymSays(d, req, step, payload, CallOf(req, step, payload), text);
    AdapterShows(d, req, step, payload, answer, text);
  }

  predicate ClassicSymText(d: Device, req: Request, step: Step, payload: string, text: string) {
    match step.action
    case ActionEncrypt => text == "classic-sym-enc(" + Algorithm(step) + "," + Payload(payload) + ")"
    case ActionDecrypt => text == "classic-sym-dec(" + Algorithm(step) + "," + Payload(payload) + ")"
    case ActionMac => text == "classic-mac(" + Algorithm(step) + "," + Payload(payload) + ")"
    case _ => false
  }

  lemma ClassicSymSays(d: Device, req: Request, step: Step, payload: string, c: Call, text: string)
    requires c == CallOf(req, step, payload) && d.devType == DevClassic && step.domain == DomainSym
    requires ClassicSymText(d, req, step, payload, text)
    ensures AdapterText(d, c) == Some(text)
  {
  }

  lemma ClassicSym(d: Device, req: Request, step: Step, payload: string, answer: Option<string>, text: string)
    requires RanFor(d, req, step, payload, answer, DevClassic, DomainSym) && ClassicSymText(d, req, step, payload, text)
    ensures Shows(d, req, step, payload, answer, text)
  {
    ClassicSymSays(d, req, step, payload, CallOf(req, step, payload), text);
    AdapterShows(d, req, step, payload, answer, text);
  }

  predicate ClassicHashText(d: Device, req: Request, step: Step, payload: string, text: string) {
    match step.action
    case ActionHash => text == "classic-hash(" + Algorithm(step) + "," + Payload(payload) + ")"
    case _ => false
  }

  lemma ClassicHashSays(d: Device, req: Request, step: Step, payload: string, c: Call, text: string)
    requires c == CallOf(req, step, payload) && d.devType == DevClassic && step.domain == DomainHash
    requires ClassicHashText(d, req, step, payload, text)
    ensures AdapterText(d, c) == Some(text)
  {
  }

  lemma ClassicHash(d: Device, req: Request, step: Step, payload: string, answer: Option<string>, text: string)
    requires RanFor(d, req, step, payload, answer, DevClassic, DomainHash) && ClassicHashText(d, req, step, payload, text)
    ensures Shows(d, req, step, payload, answer, text)
  {
    ClassicHashSays(d, req, step, payload, CallOf(req, step, payload), text);
    AdapterShows(d, req, step, payload, answer, text);
  }

  predicate ClassicFileText(d: Device, req: Request, step: Step, payload: string, text: string) {
    match step.action
    case ActionCreateFile => text == "classic-create-file(" + KeyText(req) + ")"
    case ActionReadFile => text == "classic-read-file(" + KeyText(req) + ")"
    case ActionWriteFile => text == "classic-write-file(" + KeyText(req) + ")"
    case ActionDeleteFile => text == "classic-delete-file(" + KeyText(req) + ")"
    case _ => false
  }

  lemma ClassicFileSays(d: Device, req: Request, step: Step, payload: string, c: Call, text: string)
    requires c == CallOf(req, step, payload) && d.devType == DevClassic && step.domain == DomainFile
    requires ClassicFileText(d, req, step, payload, text)
    ensures AdapterText(d, c) == Some(text)
  {
  }

  lemma ClassicFile(d: Device, req: Request, step: Step, payload: string, answer: Option<string>, text: string)
    requires RanFor(d, req, step, payload, answer, DevClassic, DomainFile) && ClassicFileText(d, req, step, payload, text)
    ensures Shows(d, req, step, payload, answer, text)
  {
    ClassicFileSays(d, req, step, payload, CallOf(req, step, payload), text);
    AdapterShows(d, req, step, payload, answer, text);
  }

  predicate PqcDeviceText(d: Device, req: Request, step: Step, payload: string, text: string) {
    match step.action
    case ActionGetDeviceInfo => text == "pqc-device-info(" + d.id + ")"
    case ActionGenerateRandom => text == "pqc-random(" + (if payload == "" then "16" else Payload(payload)) + ")"
    case _ => false
  }

  lemma PqcDeviceSays(d: Device, req: Request, step: Step, payload: string, c: Call, text: string)
    requires c == CallOf(req, step, payload) && d.devType == DevPqc && step.domain == DomainDevice
    requires PqcDeviceText(d, req, step, payload, text)
    ensures AdapterText(d, c) == Some(text)
  {
  }

  lemma PqcDevice(d: Device, req: Request, step: Step, payload: string, answer: Option<string>, text: string)
    requires RanFor(d, req, step, payload, answer, DevPqc, DomainDevice) && PqcDeviceText(d, req, step, payload, text)
    ensures Shows(d, req, step, payload, answer, text)
  {
    PqcDeviceSays(d, req, step, payload, CallOf(req, step, payload), text);
    AdapterShows(d, req, step, payload, answer, text);
  }

  predicate PqcKeyText(d: Device, req: Request, step: Step, payload: string, text: string) {
    match step.action
    case ActionGetPrivateKeyAccess => text == "pqc-key-access-ok(" + KeyText(req) + ")"
    case ActionReleasePrivateKeyAccess => text == "pqc-key-access-released(" + KeyText(req) + ")"
    case ActionGenerateKeyPair => text == "pqc-keypair(" + Algorithm(step) + "," + KeyText(req) + ")"
    case _ => false
  }

  lemma PqcKeySays(d: Device, req: Request, step: Step, payload: string, c: Call, text: string)
    requires c == CallOf(req, step, payload) && d.devType == DevPqc && step.domain == DomainKey
    requires PqcKeyText(d, req, step, payload, text)
    ensures AdapterText(d, c) == Some(text)
  {
  }

  lemma PqcKey(d: Device, req: Request, step: Step, payload: string, answer: Option<string>, text: string)
    requires RanFor(d, req, step, payload, answer, DevPqc, DomainKey) && PqcKeyText(d, req, step, payload, text)
    ensures Shows(d, req, step, payload, answer, text)
  {
    PqcKeySays(d, req, step, payload, CallOf(req, step, payload), text);
    AdapterShows(d, req, step, payload, answer, text);
  }

  predicate PqcHashText(d: Device, req: Request, step: Step, payload: string, text: string) {
    match step.action
    case ActionHash => text == "pqc-hash(" + Algorithm(step) + "," + Payload(payload) + ")"
    case _ => false
  }

  lemma PqcHashSays(d: Device, req: Request, step: Step, payload: string, c: Call, text: string)
    requires c == CallOf(req, step, payload) && d.devType == DevPqc && step.domain == DomainHash
    requires PqcHashText(d, req, step, payload, text)
    ensures AdapterText(d, c) == Some(text)
  {
  }

  lemma PqcHash(d: Device, req: Request, step: Step, payload: string, answer: Option<string>, text: string)
    requires RanFor(d, req, step, payload, answer, DevPqc, DomainHash) && PqcHashText(d, req, step, payload, text)
    ensures Shows(d, req, step, payload, answer, text)
  {
    PqcHashSays(d, req, step, payload, CallOf(req, step, payload), text);
    AdapterShows(d, req, step, payload, answer, text);
  }

  predicate PqcFileText(d: Device, req: Request, step: Step, payload: string, text: string) {
    match step.action
    case ActionCreateFile => text == "pqc-create-file(" + KeyText(req) + ")"
    case ActionReadFile => text == "pqc-read-file(" + KeyText(req) + ")"
    case ActionWriteFile => text == "pqc-write-file(" + KeyText(req) + ")"
    case ActionDeleteFile => text == "pqc-delete-file(" + KeyText(req) + ")"
    case _ => false
  }

  lemma PqcFileSays(d: Device, req: Request, step: Step, payload: string, c: Call, text: string)
    requires c == CallOf(req, step, payload) && d.devType == DevPqc && step.domain == DomainFile
    requires PqcFileText(d, req, step, payload, text)
    ensures AdapterText(d, c) == Some(text)
  {
  }

  lemma PqcFile(d: Device, req: Request, step: Step, payload: string, answer: Option<string>, text: string)
    requires RanFor(d, req, step, payload, answer, DevPqc, DomainFile) && PqcFileText(d, req, step, payload, text)
    ensures Shows(d, req, step, payload, answer, text)
  {
    PqcFileSays(d, req, step, payload, CallOf(req, step, payload), text);
    AdapterShows(d, req, step, payload, answer, text);
  }

  predicate PqcPqcText(d: Device, req: Request, step: Step, payload: string, text: string) {
    match step.action
    case ActionSign => text == "pqc-signature(" + Algorithm(step) + "," + Payload(payload) + ")"
    case ActionVerify => text == "pqc-verify-ok(" + Algorithm(step) + "," + Payload(payload) + ")"
    case ActionKemEncap => text == "pqc-kem-ct(" + Algorithm(step) + "," + Payload(payload) + ")"
    case ActionKemDecap => text == "pqc-kem-ss(" + Algorithm(step) + "," + Payload(payload) + ")"
    case _ => false
  }

  lemma PqcPqcSays(d: Device, req: Request, step: Step, payload: string, c: Call, text: string)
    requires c == CallOf(req, step, payload) && d.devType == DevPqc && step.domain == DomainPqc
    requires PqcPqcText(d, req, step, payload, text)
    ensures AdapterText(d, c) == Some(text)
  {
  }

  lemma PqcPqc(d: Device, req: Request, step: Step, payload: string, answer: Option<string>, text: string)
    requires RanFor(d, req, step, payload, answer, DevPqc, DomainPqc) && PqcPqcText(d, req, step, payload, text)
    ensures Shows(d, req, step, payload, answer, text)
  {
    PqcPqcSays(d, req, step, payload, CallOf(req, step, payload), text);
    AdapterShows(d, req, step, payload, answer, text);
  }
}
