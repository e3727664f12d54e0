/** Which vendor function a successful step reports (src/server/service/translator.c:28-112): the row is
    decided by profile, domain, action and algorithm (`Slot`), and each row has its function's name. */
module CallNames {
  import opened Common
  import opened Registry
  import opened SequenceText
  import opened Scheduler
  import opened Translator

  /** The step reports this call. */
  predicate Reports(d: Device, req: Request, step: Step, payload: string, answer: Option<string>, call: string) {
    RunOn(d, req, step, payload, answer).Succeeded? && RunOn(d, req, step, payload, answer).r.backendCall == call
  }

  /** Row `n` of the table has this call. */
  predicate Calls(n: int, call: string) { 0 <= n < |Rules()| && Rules()[n].call == call && |call| < 256 }

  /** A successful step reports the call of the row that its device and itself decide. */
  lemma SlotIsReported(d: Device, req: Request, step: Step, payload: string, answer: Option<string>, call: string)
    requires RunOn(d, req, step, payload, answer).Succeeded?
    requires Calls(Slot(d.profile, d.devType, step.domain, step.action, step.algorithm), call)
    ensures Reports(d, req, step, payload, answer, call)
  {
    var k := FindRule(Rules(), d, step.domain, step.action, step.algorithm, 0).value;
    AllInSlots();
    MatchIsSlot(Rules(), k, d, step.domain, step.action, step.algorithm);
  }

  lemma Calls1()
    ensures Calls(0, "SDF_GetDeviceInfo")
    ensures Calls(1, "SDF_GenerateRandom")
    ensures Calls(2, "SDF_GetPrivateKeyAccessRight")
    ensures Calls(3, "SDF_ReleasePrivateKeyAccessRight")
    ensures Calls(4, "SDF_GenerateKeyPair_RSA")
    ensures Calls(5, "SDF_GenerateKeyPair_ECC")
    ensures Calls(6, "SDF_ExportSignPublicKey_RSA")
    ensures Calls(7, "SDF_ExportSignPublicKey_ECC")
    ensures Calls(8, "SDF_ImportKey")
    ensures Calls(9, "SDF_DestroyKey")
  {
  }

  lemma Calls2()
    ensures Calls(10, "SoftLib_SM2Sign")
    ensures Calls(11, "SDF_InternalSign_ECC_Ex")
    ensures Calls(12, "SDF_InternalVerify_ECC_Ex")
    ensures Calls(13, "SDF_InternalEncrypt_ECC")
    ensures Calls(14, "SDF_InternalDecrypt_ECC")
    ensures Calls(15, "SDF_InternalPrivateKeyOperation_RSA")
    ensures Calls(16, "SDF_InternalPublicKeyOperation_RSA")
    ensures Calls(17, "SDF_Encrypt")
    ensures Calls(18, "SDF_Decrypt")
  {
  }

  lemma Calls3()
    ensures Calls(19, "SDF_CalculateMAC")
    ensures Calls(20, "SDF_HashInit/SDF_HashUpdate/SDF_HashFinal")
    ensures Calls(21, "SDF_CreateFile")
    ensures Calls(22, "SDF_ReadFile")
    ensures Calls(23, "SDF_WriteFile")
    ensures Calls(24, "SDF_DeleteFile")
  {
  }

  lemma Calls4()
    ensures Calls(25, "SKF_GetDevInfo")
    ensures Calls(26, "SKF_GenRandom")
    ensures Calls(27, "SKF_VerifyPIN")
    ensures Calls(28, "SKF_ClearSecureState")
    ensures Calls(29, "SKF_GenECCKeyPair")
    ensures Calls(30, "SKF_GenRSAKeyPair")
    ensures Calls(31, "SKF_GenerateKeyPairKyber")
    ensures Calls(32, "SKF_GenerateKeyPairKyber")
    ensures Calls(33, "SKF_GenerateKeyPair_Dilithium")
    ensures Calls(34, "SKF_ExportPublicKey")
  {
  }

  lemma Calls5()
    ensures Calls(35, "SKF_ExportPublicKey")
    ensures Calls(36, "SKF_SetSymmKey")
    ensures Calls(37, "SKF_DeleteContainer")
    ensures Calls(38, "SKF_ECCSignData")
    ensures Calls(39, "SKF_ECCVerify")
    ensures Calls(40, "SKF_ExtECCEncrypt")
    ensures Calls(41, "SKF_ECCDecrypt")
    ensures Calls(42, "SKF_RSASignData")
    ensures Calls(43, "SKF_RSAVerify")
    ensures Calls(44, "SKF_ExtRSAPubKeyOperation")
    ensures Calls(45, "SKF_RSADecrypt")
  {
  }

  lemma Calls6()
    ensures Calls(46, "SKF_Encrypt")
    ensures Calls(47, "SKF_Decrypt")
    ensures Calls(48, "SKF_Encrypt")
    ensures Calls(49, "SKF_Decrypt")
    ensures Calls(50, "SKF_Mac")
    ensures Calls(51, "SKF_Digest")
    ensures Calls(52, "SKF_Digest")
    ensures Calls(53, "SKF_CreateFile")
    ensures Calls(54, "SKF_ReadFile")
  {
  }

  lemma Calls7()
    ensures Calls(55, "SKF_WriteFile")
    ensures Calls(56, "SKF_DeleteFile")
    ensures Calls(57, "SKF_Sign_Dilithium")
    ensures Calls(58, "SKF_Verify_Dilithium")
    ensures Calls(59, "SKF_Encap_Kyber")
    ensures Calls(60, "SKF_Decap_Kyber")
    ensures Calls(61, "SKF_Encap_Kyber")
    ensures Calls(62, "SKF_Decap_Kyber")
  {
  }

  lemma Calls8()
    ensures Calls(63, "SDF_GetDeviceInfo")
    ensures Calls(64, "SDF_GenerateRandom")
    ensures Calls(65, "SDF_GetPrivateKeyAccessRight")
    ensures Calls(66, "SDF_ReleasePrivateKeyAccessRight")
    ensures Calls(67, "SDF_GenerateKeyPair_Dilithium")
    ensures Calls(68, "SDF_GenerateKeyPairKyber")
    ensures Calls(69, "SDF_GenerateKeyPairKyber")
    ensures Calls(70, "SDF_Sign_Dilithium")
    ensures Calls(71, "SDF_Verify_Dilithium")
  {
  }

  lemma Calls9()
    ensures Calls(72, "SDF_Encap_Kyber")
    ensures Calls(73, "SDF_Decap_Kyber")
    ensures Calls(74, "SDF_Encap_Kyber")
    ensures Calls(75, "SDF_Decap_Kyber")
    ensures Calls(76, "SDF_HashInit/SDF_HashUpdate/SDF_HashFinal")
    ensures Calls(77, "SDF_CreateFile")
    ensures Calls(78, "SDF_ReadFile")
    ensures Calls(79, "SDF_WriteFile")
    ensures Calls(80, "SDF_DeleteFile")
  {
  }
}
