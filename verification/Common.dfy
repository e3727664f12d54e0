/** Types and limits shared by every part of the gateway (include/common.h). */
module Common {

  datatype Option<+T> = None | Some(value: T)

  const MAX_ID_LEN: nat := 64
  const MAX_FIELD_LEN: nat := 256
  const MAX_PAYLOAD_LEN: nat := 1024
  const MAX_CAPS: nat := 48
  const MAX_DEVICES: nat := 32
  const MAX_QUEUE_DEPTH: nat := 128
  const MAX_RESPONSE_LEN: nat := 2048
  const MAX_SEQUENCE_STEPS: nat := 4

  datatype Domain =
    | DomainUnknown | DomainAuth | DomainDevice | DomainKey | DomainAsym
    | DomainSym | DomainHash | DomainFile | DomainPqc

  datatype Action =
    | ActionUnknown | ActionCheckPin | ActionGetDeviceInfo | ActionGenerateRandom
    | ActionGetPrivateKeyAccess | ActionReleasePrivateKeyAccess | ActionGenerateKeyPair
    | ActionExportPublicKey | ActionImportKey | ActionDestroyKey
    | ActionSign | ActionVerify | ActionEncrypt | ActionDecrypt | ActionMac | ActionHash
    | ActionCreateFile | ActionReadFile | ActionWriteFile | ActionDeleteFile
    | ActionKemEncap | ActionKemDecap

  datatype DeviceType = DevUnknown | DevClassic | DevPqc

  datatype Preference = PrefBalanced | PrefSecure | PrefEfficient | PrefClassicFirst | PrefPqcFirst

  datatype Status = StatusOk | BadRequest | Unauthorized | NotSupported | BackendFail | NoResource

  datatype Request = Request(
    requestId: string, domain: Domain, action: Action, algorithm: string, keyRef: string,
    payload: string, auxPayload: string, deviceHint: string, userPin: string,
    preference: Preference, sequence: string)

  datatype Response = Response(
    requestId: string, status: Status, selectedDevice: string, backendName: string,
    backendCall: string, trace: string, result: string)
}
