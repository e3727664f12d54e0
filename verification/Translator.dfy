/** Translation of a step into a backend call (src/server/service/translator.c) and the mock adapters
    it is dispatched to (src/server/driver/driver_dispatch.c, driver_classic.c, driver_pqc.c). */
module Translator {
  import opened Common
  import opened CStrings
  import opened Names
  import opened Registry

  datatype Rule = Rule(
    profile: string, devType: DeviceType, domain: Domain, action: Action, algorithm: string, call: string)

  const CLASSIC: string := "swsds-classic"
  const SOFTLIB: string := "softlib"
  const GM3000: string := "gm3000-skf"
  const PQC: string := "swsds-pqc"

  const RULES_1: seq<Rule> := [
    Rule(CLASSIC, DevClassic, DomainDevice, ActionGetDeviceInfo, "auto", "SDF_GetDeviceInfo"),
    Rule(CLASSIC, DevClassic, DomainDevice, ActionGenerateRandom, "auto", "SDF_GenerateRandom"),
    Rule(CLASSIC, DevClassic, DomainKey, ActionGetPrivateKeyAccess, "auto", "SDF_GetPrivateKeyAccessRight"),
    Rule(CLASSIC, DevClassic, DomainKey, ActionReleasePrivateKeyAccess, "auto", "SDF_ReleasePrivateKeyAccessRight"),
    Rule(CLASSIC, DevClassic, DomainKey, ActionGenerateKeyPair, "rsa", "SDF_GenerateKeyPair_RSA"),
    Rule(CLASSIC, DevClassic, DomainKey, ActionGenerateKeyPair, "sm2", "SDF_GenerateKeyPair_ECC"),
    Rule(CLASSIC, DevClassic, DomainKey, ActionExportPublicKey, "rsa", "SDF_ExportSignPublicKey_RSA"),
    Rule(CLASSIC, DevClassic, DomainKey, ActionExportPublicKey, "sm2", "SDF_ExportSignPublicKey_ECC"),
    Rule(CLASSIC, DevClassic, DomainKey, ActionImportKey, "auto", "SDF_ImportKey"),
    Rule(CLASSIC, DevClassic, DomainKey, ActionDestroyKey, "auto", "SDF_DestroyKey")
  ]

  const RULES_2: seq<Rule> := [
    Rule(SOFTLIB, DevClassic, DomainAsym, ActionSign, "sm2", "SoftLib_SM2Sign"),
    Rule(CLASSIC, DevClassic, DomainAsym, ActionSign, "sm2", "SDF_InternalSign_ECC_Ex"),
    Rule(CLASSIC, DevClassic, DomainAsym, ActionVerify, "sm2", "SDF_InternalVerify_ECC_Ex"),
    Rule(CLASSIC, DevClassic, DomainAsym, ActionEncrypt, "sm2", "SDF_InternalEncrypt_ECC"),
    Rule(CLASSIC, DevClassic, DomainAsym, ActionDecrypt, "sm2", "SDF_InternalDecrypt_ECC"),
    Rule(CLASSIC, DevClassic, DomainAsym, ActionSign, "rsa", "SDF_InternalPrivateKeyOperation_RSA"),
    Rule(CLASSIC, DevClassic, DomainAsym, ActionVerify, "rsa", "SDF_InternalPublicKeyOperation_RSA"),
    Rule(CLASSIC, DevClassic, DomainSym, ActionEncrypt, "sm4-cbc", "SDF_Encrypt"),
    Rule(CLASSIC, DevClassic, DomainSym, ActionDecrypt, "sm4-cbc", "SDF_Decrypt")
  ]

  const RULES_3: seq<Rule> := [
    Rule(CLASSIC, DevClassic, DomainSym, ActionMac, "sm4-mac", "SDF_CalculateMAC"),
    Rule(CLASSIC, DevClassic, DomainHash, ActionHash, "sm3", "SDF_HashInit/SDF_HashUpdate/SDF_HashFinal"),
    Rule(CLASSIC, DevClassic, DomainFile, ActionCreateFile, "auto", "SDF_CreateFile"),
    Rule(CLASSIC, DevClassic, DomainFile, ActionReadFile, "auto", "SDF_ReadFile"),
    Rule(CLASSIC, DevClassic, DomainFile, ActionWriteFile, "auto", "SDF_WriteFile"),
    Rule(CLASSIC, DevClassic, DomainFile, ActionDeleteFile, "auto", "SDF_DeleteFile")
  ]

  const RULES_4: seq<Rule> := [
    Rule(GM3000, DevClassic, DomainDevice, ActionGetDeviceInfo, "auto", "SKF_GetDevInfo"),
    Rule(GM3000, DevClassic, DomainDevice, ActionGenerateRandom, "auto", "SKF_GenRandom"),
    Rule(GM3000, DevClassic, DomainKey, ActionGetPrivateKeyAccess, "auto", "SKF_VerifyPIN"),
    Rule(GM3000, DevClassic, DomainKey, ActionReleasePrivateKeyAccess, "auto", "SKF_ClearSecureState"),
    Rule(GM3000, DevClassic, DomainKey, ActionGenerateKeyPair, "sm2", "SKF_GenECCKeyPair"),
    Rule(GM3000, DevClassic, DomainKey, ActionGenerateKeyPair, "rsa", "SKF_GenRSAKeyPair"),
    Rule(GM3000, DevClassic, DomainKey, ActionGenerateKeyPair, "kyber768", "SKF_GenerateKeyPairKyber"),
    Rule(GM3000, DevClassic, DomainKey, ActionGenerateKeyPair, "mlkem768", "SKF_GenerateKeyPairKyber"),
    Rule(GM3000, DevClassic, DomainKey, ActionGenerateKeyPair, "dilithium3", "SKF_GenerateKeyPair_Dilithium"),
    Rule(GM3000, DevClassic, DomainKey, ActionExportPublicKey, "sm2", "SKF_ExportPublicKey")
  ]

  const RULES_5: seq<Rule> := [
    Rule(GM3000, DevClassic, DomainKey, ActionExportPublicKey, "rsa", "SKF_ExportPublicKey"),
    Rule(GM3000, DevClassic, DomainKey, ActionImportKey, "auto", "SKF_SetSymmKey"),
    Rule(GM3000, DevClassic, DomainKey, ActionDestroyKey, "auto", "SKF_DeleteContainer"),
    Rule(GM3000, DevClassic, DomainAsym, ActionSign, "sm2", "SKF_ECCSignData"),
    Rule(GM3000, DevClassic, DomainAsym, ActionVerify, "sm2", "SKF_ECCVerify"),
    Rule(GM3000, DevClassic, DomainAsym, ActionEncrypt, "sm2", "SKF_ExtECCEncrypt"),
    Rule(GM3000, DevClassic, DomainAsym, ActionDecrypt, "sm2", "SKF_ECCDecrypt"),
    Rule(GM3000, DevClassic, DomainAsym, ActionSign, "rsa", "SKF_RSASignData"),
    Rule(GM3000, DevClassic, DomainAsym, ActionVerify, "rsa", "SKF_RSAVerify"),
    Rule(GM3000, DevClassic, DomainAsym, ActionEncrypt, "rsa", "SKF_ExtRSAPubKeyOperation"),
    Rule(GM3000, DevClassic, DomainAsym, ActionDecrypt, "rsa", "SKF_RSADecrypt")
  ]

  const RULES_6: seq<Rule> := [
    Rule(GM3000, DevClassic, DomainSym, ActionEncrypt, "sm4-cbc", "SKF_Encrypt"),
    Rule(GM3000, DevClassic, DomainSym, ActionDecrypt, "sm4-cbc", "SKF_Decrypt"),
    Rule(GM3000, DevClassic, DomainSym, ActionEncrypt, "sm4-ecb", "SKF_Encrypt"),
    Rule(GM3000, DevClassic, DomainSym, ActionDecrypt, "sm4-ecb", "SKF_Decrypt"),
    Rule(GM3000, DevClassic, DomainSym, ActionMac, "sm4-mac", "SKF_Mac"),
    Rule(GM3000, DevClassic, DomainHash, ActionHash, "sm3", "SKF_Digest"),
    Rule(GM3000, DevClassic, DomainHash, ActionHash, "sha256", "SKF_Digest"),
    Rule(GM3000, DevClassic, DomainFile, ActionCreateFile, "auto", "SKF_CreateFile"),
    Rule(GM3000, DevClassic, DomainFile, ActionReadFile, "auto", "SKF_ReadFile")
  ]

  const RULES_7: seq<Rule> := [
    Rule(GM3000, DevClassic, DomainFile, ActionWriteFile, "auto", "SKF_WriteFile"),
    Rule(GM3000, DevClassic, DomainFile, ActionDeleteFile, "auto", "SKF_DeleteFile"),
    Rule(GM3000, DevClassic, DomainPqc, ActionSign, "dilithium3", "SKF_Sign_Dilithium"),
    Rule(GM3000, DevClassic, DomainPqc, ActionVerify, "dilithium3", "SKF_Verify_Dilithium"),
    Rule(GM3000, DevClassic, DomainPqc, ActionKemEncap, "kyber768", "SKF_Encap_Kyber"),
    Rule(GM3000, DevClassic, DomainPqc, ActionKemDecap, "kyber768", "SKF_Decap_Kyber"),
    Rule(GM3000, DevClassic, DomainPqc, ActionKemEncap, "mlkem768", "SKF_Encap_Kyber"),
    Rule(GM3000, DevClassic, DomainPqc, ActionKemDecap, "mlkem768", "SKF_Decap_Kyber")
  ]

  const RULES_8: seq<Rule> := [
    Rule(PQC, DevPqc, DomainDevice, ActionGetDeviceInfo, "auto", "SDF_GetDeviceInfo"),
    Rule(PQC, DevPqc, DomainDevice, ActionGenerateRandom, "auto", "SDF_GenerateRandom"),
    Rule(PQC, DevPqc, DomainKey, ActionGetPrivateKeyAccess, "auto", "SDF_GetPrivateKeyAccessRight"),
    Rule(PQC, DevPqc, DomainKey, ActionReleasePrivateKeyAccess, "auto", "SDF_ReleasePrivateKeyAccessRight"),
    Rule(PQC, DevPqc, DomainKey, ActionGenerateKeyPair, "dilithium3", "SDF_GenerateKeyPair_Dilithium"),
    Rule(PQC, DevPqc, DomainKey, ActionGenerateKeyPair, "kyber768", "SDF_GenerateKeyPairKyber"),
    Rule(PQC, DevPqc, DomainKey, ActionGenerateKeyPair, "mlkem768", "SDF_GenerateKeyPairKyber"),
    Rule(PQC, DevPqc, DomainPqc, ActionSign, "dilithium3", "SDF_Sign_Dilithium"),
    Rule(PQC, DevPqc, DomainPqc, ActionVerify, "dilithium3", "SDF_Verify_Dilithium")
  ]

  const RULES_9: seq<Rule> := [
    Rule(PQC, DevPqc, DomainPqc, ActionKemEncap, "kyber768", "SDF_Encap_Kyber"),
    Rule(PQC, DevPqc, DomainPqc, ActionKemDecap, "kyber768", "SDF_Decap_Kyber"),
    Rule(PQC, DevPqc, DomainPqc, ActionKemEncap, "mlkem768", "SDF_Encap_Kyber"),
    Rule(PQC, DevPqc, DomainPqc, ActionKemDecap, "mlkem768", "SDF_Decap_Kyber"),
    Rule(PQC, DevPqc, DomainHash, ActionHash, "sm3", "SDF_HashInit/SDF_HashUpdate/SDF_HashFinal"),
    Rule(PQC, DevPqc, DomainFile, ActionCreateFile, "auto", "SDF_CreateFile"),
    Rule(PQC, DevPqc, DomainFile, ActionReadFile, "auto", "SDF_ReadFile"),
    Rule(PQC, DevPqc, DomainFile, ActionWriteFile, "auto", "SDF_WriteFile"),
    Rule(PQC, DevPqc, DomainFile, ActionDeleteFile, "auto", "SDF_DeleteFile")
  ]

  /** The table `g_rules`, in its order. */
  function Rules(): seq<Rule> {
    RULES_1 + (RULES_2 + (RULES_3 + (RULES_4 + (RULES_5 + (RULES_6 + (RULES_7 + (RULES_8 + RULES_9)))))))
  }

  predicate Matches(r: Rule, d: Device, domain: Domain, action: Action, algorithm: string) {
    && r.devType == d.devType && r.profile == d.profile && r.domain == domain && r.action == action
    && (r.algorithm == algorithm || r.algorithm == "auto")
  }

  /** `find_rule`: the first matching row from `start` on. */
  function FindRule(rules: seq<Rule>, d: Device, domain: Domain, action: Action, algorithm: string, start: nat): (k: Option<nat>)
    requires start <= |rules|
    ensures k.Some? ==> start <= k.value < |rules| && Matches(rules[k.value], d, domain, action, algorithm)
    ensures k.None? ==> forall i :: start <= i < |rules| ==> !Matches(rules[i], d, domain, action, algorithm)
    decreases |rules| - start
  {
    if start == |rules| then None
    else if Matches(rules[start], d, domain, action, algorithm) then Some(start)
    else FindRule(rules, d, domain, action, algorithm, start + 1)
  }

  method FindRuleIn(rules: seq<Rule>, d: Device, domain: Domain, action: Action, algorithm: string) returns (k: Option<nat>)
    ensures k == FindRule(rules, d, domain, action, algorithm, 0)
  {
    for i := 0 to |rules|
      invariant FindRule(rules, d, domain, action, algorithm, 0) == FindRule(rules, d, domain, action, algorithm, i)
    {
      if rules[i].devType != d.devType { continue; }
      if rules[i].profile != d.profile { continue; }
      if rules[i].domain != domain || rules[i].action != action { continue; }
      if rules[i].algorithm == algorithm || rules[i].algorithm == "auto" { return Some(i); }
    }
    return None;
  }

  // ------------------------------------------------------------- at most one rule matches

  function ClassicSlot(d: Domain, a: Action, algorithm: string): int {
    match d
    case DomainDevice =>
      (match a
       case ActionGetDeviceInfo => 0
       case ActionGenerateRandom => 1
       case _ => -1)
    case DomainKey =>
      (match a
       case ActionGetPrivateKeyAccess => 2
       case ActionReleasePrivateKeyAccess => 3
       case ActionGenerateKeyPair => if algorithm == "rsa" then 4 else if algorithm == "sm2" then 5 else -1
       case ActionExportPublicKey => if algorithm == "rsa" then 6 else if algorithm == "sm2" then 7 else -1
       case ActionImportKey => 8
       case ActionDestroyKey => 9
       case _ => -1)
    case DomainAsym =>
      (match a
       case ActionSign => if algorithm == "sm2" then 11 else if algorithm == "rsa" then 15 else -1
       case ActionVerify => if algorithm == "sm2" then 12 else if algorithm == "rsa" then 16 else -1
       case ActionEncrypt => if algorithm == "sm2" then 13 else -1
       case ActionDecrypt => if algorithm == "sm2" then 14 else -1
       case _ => -1)
    case DomainSym =>
      (match a
       case ActionEncrypt => if algorithm == "sm4-cbc" then 17 else -1
       case ActionDecrypt => if algorithm == "sm4-cbc" then 18 else -1
       case ActionMac => if algorithm == "sm4-mac" then 19 else -1
       case _ => -1)
    case DomainHash =>
      (match a
       case ActionHash => if algorithm == "sm3" then 20 else -1
       case _ => -1)
    case DomainFile =>
      (match a
       case ActionCreateFile => 21
       case ActionReadFile => 22
       case ActionWriteFile => 23
       case ActionDeleteFile => 24
       case _ => -1)
    case _ => -1
  }

  function SoftlibSlot(d: Domain, a: Action, algorithm: string): int {
    match d
    case DomainAsym =>
      (match a
       case ActionSign => if algorithm == "sm2" then 10 else -1
       case _ => -1)
    case _ => -1
  }

  function Gm3000Slot(d: Domain, a: Action, algorithm: string): int {
    match d
    case DomainDevice =>
      (match a
       case ActionGetDeviceInfo => 25
       case ActionGenerateRandom => 26
       case _ => -1)
    case DomainKey =>
      (match a
       case ActionGetPrivateKeyAccess => 27
       case ActionReleasePrivateKeyAccess => 28
       case ActionGenerateKeyPair => if algorithm == "sm2" then 29 else if algorithm == "rsa" then 30 else if algorithm == "kyber768" then 31 else if algorithm == "mlkem768" then 32 else if algorithm == "dilithium3" then 33 else -1
       case ActionExportPublicKey => if algorithm == "sm2" then 34 else if algorithm == "rsa" then 35 else -1
       case ActionImportKey => 36
       case ActionDestroyKey => 37
       case _ => -1)
    case DomainAsym =>
      (match a
       case ActionSign => if algorithm == "sm2" then 38 else if algorithm == "rsa" then 42 else -1
       case ActionVerify => if algorithm == "sm2" then 39 else if algorithm == "rsa" then 43 else -1
       case ActionEncrypt => if algorithm == "sm2" then 40 else if algorithm == "rsa" then 44 else -1
       case ActionDecrypt => if algorithm == "sm2" then 41 else if algorithm == "rsa" then 45 else -1
       case _ => -1)
    case DomainSym =>
      (match a
       case ActionEncrypt => if algorithm == "sm4-cbc" then 46 else if algorithm == "sm4-ecb" then 48 else -1
       case ActionDecrypt => if algorithm == "sm4-cbc" then 47 else if algorithm == "sm4-ecb" then 49 else -1
       case ActionMac => if algorithm == "sm4-mac" then 50 else -1
       case _ => -1)
    case DomainHash =>
      (match a
       case ActionHash => if algorithm == "sm3" then 51 else if algorithm == "sha256" then 52 else -1
       case _ => -1)
    case DomainFile =>
      (match a
       case ActionCreateFile => 53
       case ActionReadFile => 54
       case ActionWriteFile => 55
       case ActionDeleteFile => 56
       case _ => -1)
    case DomainPqc =>
      (match a
       case ActionSign => if algorithm == "dilithium3" then 57 else -1
       case ActionVerify => if algorithm == "dilithium3" then 58 else -1
       case ActionKemEncap => if algorithm == "kyber768" then 59 else if algorithm == "mlkem768" then 61 else -1
       case ActionKemDecap => if algorithm == "kyber768" then 60 else if algorithm == "mlkem768" then 62 else -1
       case _ => -1)
    case _ => -1
  }

  function PqcSlot(d: Domain, a: Action, algorithm: string): int {
    match d
    case DomainDevice =>
      (match a
       case ActionGetDeviceInfo => 63
       case ActionGenerateRandom => 64
       case _ => -1)
    case DomainKey =>
      (match a
       case ActionGetPrivateKeyAccess => 65
       case ActionReleasePrivateKeyAccess => 66
       case ActionGenerateKeyPair => if algorithm == "dilithium3" then 67 else if algorithm == "kyber768" then 68 else if algorithm == "mlkem768" then 69 else -1
       case _ => -1)
    case DomainPqc =>
      (match a
       case ActionSign => if algorithm == "dilithium3" then 70 else -1
       case ActionVerify => if algorithm == "dilithium3" then 71 else -1
       case ActionKemEncap => if algorithm == "kyber768" then 72 else if algorithm == "mlkem768" then 74 else -1
       case ActionKemDecap => if algorithm == "kyber768" then 73 else if algorithm == "mlkem768" then 75 else -1
       case _ => -1)
    case DomainHash =>
      (match a
       case ActionHash => if algorithm == "sm3" then 76 else -1
       case _ => -1)
    case DomainFile =>
      (match a
       case ActionCreateFile => 77
       case ActionReadFile => 78
       case ActionWriteFile => 79
       case ActionDeleteFile => 80
       case _ => -1)
    case _ => -1
  }

  /** The row that a query selects, decided from the query alone; -1 when there is none. */
  function Slot(profile: string, t: DeviceType, d: Domain, a: Action, algorithm: string): int {
    if t == DevPqc then if profile == PQC then PqcSlot(d, a, algorithm) else -1
    else if profile == CLASSIC then ClassicSlot(d, a, algorithm)
    else if profile == SOFTLIB then SoftlibSlot(d, a, algorithm)
    else if profile == GM3000 then Gm3000Slot(d, a, algorithm)
    else -1
  }

  /** Whatever algorithm a row matches, the query selects row `n`. */
  ghost predicate InSlot(r: Rule, n: int) {
    forall algorithm :: r.algorithm == algorithm || r.algorithm == "auto" ==>
      Slot(r.profile, r.devType, r.domain, r.action, algorithm) == n
  }

  lemma Slots1()
    ensures |RULES_1| == 10 && forall k :: 0 <= k < 10 ==> InSlot(RULES_1[k], 0 + k)
  {
  }

  lemma Slots2()
    ensures |RULES_2| == 9 && forall k :: 0 <= k < 9 ==> InSlot(RULES_2[k], 10 + k)
  {
  }

  lemma Slots3()
    ensures |RULES_3| == 6 && forall k :: 0 <= k < 6 ==> InSlot(RULES_3[k], 19 + k)
  {
  }

  lemma Slots4()
    ensures |RULES_4| == 10 && forall k :: 0 <= k < 10 ==> InSlot(RULES_4[k], 25 + k)
  {
  }

  lemma Slots5()
    ensures |RULES_5| == 11 && forall k :: 0 <= k < 11 ==> InSlot(RULES_5[k], 35 + k)
  {
  }

  lemma Slots6()
    ensures |RULES_6| == 9 && forall k :: 0 <= k < 9 ==> InSlot(RULES_6[k], 46 + k)
  {
    Slots6Sym();
    Slots6Others();
  }

  lemma Slots6Sym()
    ensures |RULES_6| == 9 && forall k :: 0 <= k < 5 ==> InSlot(RULES_6[k], 46 + k)
  {
  }

  lemma Slots6Others()
    ensures |RULES_6| == 9 && forall k :: 5 <= k < 9 ==> InSlot(RULES_6[k], 46 + k)
  {
  }

  lemma Slots7()
    ensures |RULES_7| == 8 && forall k :: 0 <= k < 8 ==> InSlot(RULES_7[k], 55 + k)
  {
    Slots7Sign();
    Slots7Kem();
  }

  lemma Slots7Sign()
    ensures |RULES_7| == 8 && forall k :: 0 <= k < 4 ==> InSlot(RULES_7[k], 55 + k)
  {
  }

  lemma Slots7Kem()
    ensures |RULES_7| == 8 && forall k :: 4 <= k < 8 ==> InSlot(RULES_7[k], 55 + k)
  {
  }

  lemma Slots8()
    ensures |RULES_8| == 9 && forall k :: 0 <= k < 9 ==> InSlot(RULES_8[k], 63 + k)
  {
  }

  lemma Slots9()
    ensures |RULES_9| == 9 && forall k :: 0 <= k < 9 ==> InSlot(RULES_9[k], 72 + k)
  {
    Slots9Kem();
    Slots9Others();
  }

  lemma Slots9Kem()
    ensures |RULES_9| == 9 && forall k :: 0 <= k < 4 ==> InSlot(RULES_9[k], 72 + k)
  {
  }

  lemma Slots9Others()
    ensures |RULES_9| == 9 && forall k :: 4 <= k < 9 ==> InSlot(RULES_9[k], 72 + k)
  {
  }

  ghost predicate InSlots(rules: seq<Rule>, base: nat) {
    forall k :: 0 <= k < |rules| ==> InSlot(rules[k], base + k)
  }

  lemma SlotsConcat(a: seq<Rule>, b: seq<Rule>, base: nat)
    requires InSlots(a, base) && InSlots(b, base + |a|)
    ensures InSlots(a + b, base)
  {
  }

  lemma AllInSlots()
    ensures |Rules()| == 81 && InSlots(Rules(), 0)
  {
    Slots1(); Slots2(); Slots3(); Slots4(); Slots5(); Slots6(); Slots7(); Slots8(); Slots9();
    EightConcats(RULES_1, RULES_2, RULES_3, RULES_4, RULES_5, RULES_6, RULES_7, RULES_8, RULES_9);
  }

  lemma EightConcats(a: seq<Rule>, b: seq<Rule>, c: seq<Rule>, d: seq<Rule>, e: seq<Rule>, f: seq<Rule>,
                     g: seq<Rule>, h: seq<Rule>, i: seq<Rule>)
    requires |a| == 10 && |b| == 9 && |c| == 6 && |d| == 10 && |e| == 11 && |f| == 9 && |g| == 8 && |h| == 9 && |i| == 9
    requires InSlots(a, 0) && InSlots(b, 10) && InSlots(c, 19) && InSlots(d, 25) && InSlots(e, 35) && InSlots(f, 46)
    requires InSlots(g, 55) && InSlots(h, 63) && InSlots(i, 72)
    ensures InSlots(a + (b + (c + (d + (e + (f + (g + (h + i))))))), 0)
    ensures |a + (b + (c + (d + (e + (f + (g + (h + i)))))))| == 81
  {
    SlotsConcat(h, i, 63);
    SlotsConcat(g, h + i, 55);
    SlotsConcat(f, g + (h + i), 46);
    SlotsConcat(e, f + (g + (h + i)), 35);
    SlotsConcat(d, e + (f + (g + (h + i))), 25);
    SlotsConcat(c, d + (e + (f + (g + (h + i)))), 19);
    SlotsConcat(b, c + (d + (e + (f + (g + (h + i))))), 10);
    SlotsConcat(a, b + (c + (d + (e + (f + (g + (h + i)))))), 0);
  }

  lemma MatchIsSlot(rules: seq<Rule>, k: nat, d: Device, domain: Domain, action: Action, algorithm: string)
    requires InSlots(rules, 0) && k < |rules| && Matches(rules[k], d, domain, action, algorithm)
    ensures k == Slot(d.profile, d.devType, domain, action, algorithm)
  {
    assert InSlot(rules[k], 0 + k);
  }

  /** For every device, domain, action and algorithm at most one row of the table matches. */
  lemma AtMostOneRule(i: nat, j: nat, d: Device, domain: Domain, action: Action, algorithm: string)
    requires i < |Rules()| && Matches(Rules()[i], d, domain, action, algorithm)
    requires j < |Rules()| && Matches(Rules()[j], d, domain, action, algorithm)
    ensures i == j
  {
    AllInSlots();
    MatchIsSlot(Rules(), i, d, domain, action, algorithm);
    MatchIsSlot(Rules(), j, d, domain, action, algorithm);
  }

  /** So the order of the table is irrelevant: scanning any permutation finds the same row. */
  lemma TableOrderIrrelevant(rules: seq<Rule>, d: Device, domain: Domain, action: Action, algorithm: string)
    requires multiset(rules) == multiset(Rules())
    ensures var a, b := FindRule(Rules(), d, domain, action, algorithm, 0), FindRule(rules, d, domain, action, algorithm, 0);
      (a.Some? <==> b.Some?) && (a.Some? ==> Rules()[a.value] == rules[b.value])
  {
    AllInSlots();
    PermutedScan(Rules(), rules, d, domain, action, algorithm);
  }

  lemma PermutedScan(table: seq<Rule>, rules: seq<Rule>, d: Device, domain: Domain, action: Action, algorithm: string)
    requires multiset(rules) == multiset(table) && InSlots(table, 0)
    ensures var a, b := FindRule(table, d, domain, action, algorithm, 0), FindRule(rules, d, domain, action, algorithm, 0);
      (a.Some? <==> b.Some?) && (a.Some? ==> table[a.value] == rules[b.value])
  {
    var a, b := FindRule(table, d, domain, action, algorithm, 0), FindRule(rules, d, domain, action, algorithm, 0);
    if a.Some? {
      assert table[a.value] in multiset(rules);
      var j :| 0 <= j < |rules| && rules[j] == table[a.value];
      MatchIsSlot(table, a.value, d, domain, action, algorithm);
    }
    if b.Some? {
      assert rules[b.value] in multiset(table);
      var i :| 0 <= i < |table| && table[i] == rules[b.value];
      MatchIsSlot(table, i, d, domain, action, algorithm);
    }
  }

  // ------------------------------------------------------------- the translated call

  datatype Call = Call(
    domain: Domain, action: Action, algorithm: string, keyRef: string, payload: string, auxPayload: string)

  datatype Translated = Translated(call: Call, backendName: string, backendCall: string)

  /** `append_text`: as much of `src` as still fits behind `dst`. */
  method AppendText(dst: string, size: nat, src: string) returns (r: string)
    requires size > 0 && |dst| < size
    ensures r == Clip(dst + src, size)
  {
    r := dst;
    var i := 0;
    while i < |src| && |r| + 1 < size
      invariant 0 <= i <= |src| && |r| < size && r == dst + src[..i]
    {
      r := r + [src[i]];
      i := i + 1;
    }
    assert dst + src == r + src[i..];
    ClipOfPrefix(r, src[i..], size);
  }

  function BackendName(d: Device): string {
    Clip(DeviceTypeToString(d.devType) + ":" + d.profile, MAX_FIELD_LEN)
  }

  /** `translate_backend_call`; `None` when no row matches. */
  function Translate(domain: Domain, action: Action, algorithm: string, payload: string, aux: string,
                     keyRef: string, d: Device): Option<Translated>
  {
    var k := FindRule(Rules(), d, domain, action, algorithm, 0);
    if k.None? then None
    else
      Some(Translated(
        Call(domain, action, Clip(algorithm, MAX_FIELD_LEN), Clip(keyRef, MAX_FIELD_LEN),
             Clip(payload, MAX_PAYLOAD_LEN), Clip(aux, MAX_PAYLOAD_LEN)),
        BackendName(d), Clip(Rules()[k.value].call, MAX_FIELD_LEN)))
  }

  method TranslateBackendCall(domain: Domain, action: Action, algorithm: string, payload: string, aux: string,
                              keyRef: string, d: Device) returns (r: Option<Translated>)
    ensures r == Translate(domain, action, algorithm, payload, aux, keyRef, d)
  {
    var call := Call(domain, action, Clip(algorithm, MAX_FIELD_LEN), Clip(keyRef, MAX_FIELD_LEN),
                     Clip(payload, MAX_PAYLOAD_LEN), Clip(aux, MAX_PAYLOAD_LEN));
    var name := AppendText("", MAX_FIELD_LEN, DeviceTypeToString(d.devType));
    var colon := AppendText(name, MAX_FIELD_LEN, ":");
    var full := AppendText(colon, MAX_FIELD_LEN, d.profile);
    TypeNameFits(d.devType);
    assert "" + DeviceTypeToString(d.devType) == name && full == BackendName(d);
    var rules := Rules();
    var k := FindRuleIn(rules, d, domain, action, algorithm);
    if k.None? { return None; }
    return Some(Translated(call, full, Clip(rules[k.value].call, MAX_FIELD_LEN)));
  }

  lemma TypeNameFits(t: DeviceType)
    ensures |DeviceTypeToString(t) + ":"| < MAX_FIELD_LEN
  {
  }

  // ------------------------------------------------------------- the mock adapters

  /** `classic_driver_ops`: the result text of each supported call. */
  function ClassicAdapter(d: Device, c: Call): Option<string> {
    match c.domain
    case DomainDevice =>
      (match c.action
       case ActionGetDeviceInfo => Some("classic-device-info(" + d.id + ")")
       case ActionGenerateRandom => Some("classic-random(" + (if c.payload == "" then "16" else c.payload) + ")")
       case _ => None)
    case DomainKey =>
      (match c.action
       case ActionGetPrivateKeyAccess => Some("classic-key-access-ok(" + c.keyRef + ")")
       case ActionReleasePrivateKeyAccess => Some("classic-key-access-released(" + c.keyRef + ")")
       case ActionGenerateKeyPair => Some("classic-keypair(" + c.algorithm + "," + c.keyRef + ")")
       case ActionExportPublicKey => Some("classic-export-pub(" + c.algorithm + "," + c.keyRef + ")")
       case ActionImportKey => Some("classic-import-key(" + c.keyRef + ")")
       case ActionDestroyKey => Some("classic-destroy-key(" + c.keyRef + ")")
       case _ => None)
    case DomainAsym =>
      (match c.action
       case ActionSign => Some("classic-signature(" + c.algorithm + "," + c.payload + ")")
       case ActionVerify => Some("classic-verify-ok(" + c.algorithm + "," + c.payload + ")")
       case ActionEncrypt => Some("classic-cipher(" + c.algorithm + "," + c.payload + ")")
       case ActionDecrypt => Some("classic-plain(" + c.algorithm + "," + c.payload + ")")
       case _ => None)
    case DomainSym =>
      (match c.action
       case ActionEncrypt => Some("classic-sym-enc(" + c.algorithm + "," + c.payload + ")")
       case ActionDecrypt => Some("classic-sym-dec(" + c.algorithm + "," + c.payload + ")")
       case ActionMac => Some("classic-mac(" + c.algorithm + "," + c.payload + ")")
       case _ => None)
    case DomainHash =>
      if c.action == ActionHash then Some("classic-hash(" + c.algorithm + "," + c.payload + ")") else None
    case DomainFile =>
      (match c.action
       case ActionCreateFile => Some("classic-create-file(" + c.keyRef + ")")
       case ActionReadFile => Some("classic-read-file(" + c.keyRef + ")")
       case ActionWriteFile => Some("classic-write-file(" + c.keyRef + ")")
       case ActionDeleteFile => Some("classic-delete-file(" + c.keyRef + ")")
       case _ => None)
    case _ => None
  }

  /** `pqc_driver_ops`. */
  function PqcAdapter(d: Device, c: Call): Option<string> {
    match c.domain
    case DomainDevice =>
      (match c.action
       case ActionGetDeviceInfo => Some("pqc-device-info(" + d.id + ")")
       case ActionGenerateRandom => Some("pqc-random(" + (if c.payload == "" then "16" else c.payload) + ")")
       case _ => None)
    case DomainKey =>
      (match c.action
       case ActionGetPrivateKeyAccess => Some("pqc-key-access-ok(" + c.keyRef + ")")
       case ActionReleasePrivateKeyAccess => Some("pqc-key-access-released(" + c.keyRef + ")")
       case ActionGenerateKeyPair => Some("pqc-keypair(" + c.algorithm + "," + c.keyRef + ")")
       case _ => None)
    case DomainHash =>
      if c.action == ActionHash then Some("pqc-hash(" + c.algorithm + "," + c.payload + ")") else None
    case DomainFile =>
      (match c.action
       case ActionCreateFile => Some("pqc-create-file(" + c.keyRef + ")")
       case ActionReadFile => Some("pqc-read-file(" + c.keyRef + ")")
       case ActionWriteFile => Some("pqc-write-file(" + c.keyRef + ")")
       case ActionDeleteFile => Some("pqc-delete-file(" + c.keyRef + ")")
       case _ => None)
    case DomainPqc =>
      (match c.action
       case ActionSign => Some("pqc-signature(" + c.algorithm + "," + c.payload + ")")
       case ActionVerify => Some("pqc-verify-ok(" + c.algorithm + "," + c.payload + ")")
       case ActionKemEncap => Some("pqc-kem-ct(" + c.algorithm + "," + c.payload + ")")
       case ActionKemDecap => Some("pqc-kem-ss(" + c.algorithm + "," + c.payload + ")")
       case _ => None)
    case _ => None
  }

  /** The adapter that `execute_single_step` picks; `answer` is what the SKF library makes of this call. */
  function Dispatch(d: Device, c: Call, answer: Option<string>): Option<string> {
    if c.domain == DomainUnknown || c.domain == DomainAuth then None
    else if d.profile == GM3000 then answer
    else if d.devType == DevClassic then ClassicAdapter(d, c)
    else PqcAdapter(d, c)
  }

  /** The domains and actions for which each adapter has a handler. */
  predicate Supported(t: DeviceType, d: Domain, a: Action) {
    if d == DomainDevice then a == ActionGetDeviceInfo || a == ActionGenerateRandom
    else if d == DomainHash then a == ActionHash
    else if d == DomainFile then
      a == ActionCreateFile || a == ActionReadFile || a == ActionWriteFile || a == ActionDeleteFile
    else if d == DomainKey then
      a == ActionGetPrivateKeyAccess || a == ActionReleasePrivateKeyAccess || a == ActionGenerateKeyPair
      || (t == DevClassic && (a == ActionExportPublicKey || a == ActionImportKey || a == ActionDestroyKey))
    else if d == DomainAsym then
      t == DevClassic && (a == ActionSign || a == ActionVerify || a == ActionEncrypt || a == ActionDecrypt)
    else if d == DomainSym then t == DevClassic && (a == ActionEncrypt || a == ActionDecrypt || a == ActionMac)
    else if d == DomainPqc then
      t != DevClassic && (a == ActionSign || a == ActionVerify || a == ActionKemEncap || a == ActionKemDecap)
    else false
  }

  lemma AdaptersSupport(d: Device, c: Call)
    ensures (if d.devType == DevClassic then ClassicAdapter(d, c) else PqcAdapter(d, c)).Some?
      <==> Supported(d.devType, c.domain, c.action)
  {
  }

  /** The adapter for the row's device type has a handler for its domain and action. */
  predicate Handled(r: Rule) {
    r.domain != DomainUnknown && r.domain != DomainAuth && (r.profile != GM3000 ==> Supported(r.devType, r.domain, r.action))
  }

  predicate AllHandled(rules: seq<Rule>) { forall k :: 0 <= k < |rules| ==> Handled(rules[k]) }

  lemma Handled1()
    ensures AllHandled(RULES_1)
  {
  }

  lemma Handled2()
    ensures AllHandled(RULES_2)
  {
  }

  lemma Handled3()
    ensures AllHandled(RULES_3)
  {
  }

  lemma Handled4()
    ensures AllHandled(RULES_4)
  {
  }

  lemma Handled5()
    ensures AllHandled(RULES_5)
  {
  }

  lemma Handled6()
    ensures AllHandled(RULES_6)
  {
  }

  lemma Handled7()
    ensures AllHandled(RULES_7)
  {
  }

  lemma Handled8()
    ensures AllHandled(RULES_8)
  {
  }

  lemma Handled9()
    ensures AllHandled(RULES_9)
  {
  }

  lemma HandledConcat(a: seq<Rule>, b: seq<Rule>)
    requires AllHandled(a) && AllHandled(b)
    ensures AllHandled(a + b)
  {
  }

  lemma RulesHandled()
    ensures AllHandled(Rules())
  {
    Handled1(); Handled2(); Handled3(); Handled4(); Handled5(); Handled6(); Handled7(); Handled8(); Handled9();
    HandledConcat(RULES_8, RULES_9);
    HandledConcat(RULES_7, RULES_8 + RULES_9);
    HandledConcat(RULES_6, RULES_7 + (RULES_8 + RULES_9));
    HandledConcat(RULES_5, RULES_6 + (RULES_7 + (RULES_8 + RULES_9)));
    HandledConcat(RULES_4, RULES_5 + (RULES_6 + (RULES_7 + (RULES_8 + RULES_9))));
    HandledConcat(RULES_3, RULES_4 + (RULES_5 + (RULES_6 + (RULES_7 + (RULES_8 + RULES_9)))));
    HandledConcat(RULES_2, RULES_3 + (RULES_4 + (RULES_5 + (RULES_6 + (RULES_7 + (RULES_8 + RULES_9))))));
    HandledConcat(RULES_1, RULES_2 + (RULES_3 + (RULES_4 + (RULES_5 + (RULES_6 + (RULES_7 + (RULES_8 + RULES_9)))))));
  }

  /** Some row of the table matches the device and the call. */
  ghost predicate HasRule(d: Device, domain: Domain, action: Action, algorithm: string) {
    exists r :: r in Rules() && Matches(r, d, domain, action, algorithm)
  }

  lemma TranslatesIffRule(domain: Domain, action: Action, algorithm: string, payload: string, aux: string,
                          keyRef: string, d: Device)
    ensures Translate(domain, action, algorithm, payload, aux, keyRef, d).Some? <==> HasRule(d, domain, action, algorithm)
  {
    ScanFinds(Rules(), d, domain, action, algorithm);
    TranslatesIffFound(domain, action, algorithm, payload, aux, keyRef, d);
  }

  lemma TranslatesIffFound(domain: Domain, action: Action, algorithm: string, payload: string, aux: string,
                           keyRef: string, d: Device)
    ensures Translate(domain, action, algorithm, payload, aux, keyRef, d).Some?
      <==> FindRule(Rules(), d, domain, action, algorithm, 0).Some?
  {
  }

  lemma ScanFinds(rules: seq<Rule>, d: Device, domain: Domain, action: Action, algorithm: string)
    ensures FindRule(rules, d, domain, action, algorithm, 0).Some?
      <==> exists r :: r in rules && Matches(r, d, domain, action, algorithm)
  {
    var k := FindRule(rules, d, domain, action, algorithm, 0);
    if k.Some? { assert rules[k.value] in rules; }
  }

  /** A call that translates is also executed, except that on a device of the SKF profile the
      library has the last word. */
  lemma TranslationSuffices(domain: Domain, action: Action, algorithm: string, payload: string, aux: string,
                            keyRef: string, d: Device, answer: Option<string>)
    requires Translate(domain, action, algorithm, payload, aux, keyRef, d).Some?
    ensures Dispatch(d, Translate(domain, action, algorithm, payload, aux, keyRef, d).value.call, answer).Some?
      <==> (d.profile == GM3000 ==> answer.Some?)
  {
    RulesHandled();
    var k := FindRule(Rules(), d, domain, action, algorithm, 0);
    HandledAt(Rules(), k.value);
    AdaptersSupport(d, Translate(domain, action, algorithm, payload, aux, keyRef, d).value.call);
  }

  lemma HandledAt(rules: seq<Rule>, k: nat)
    requires AllHandled(rules) && k < |rules|
    ensures Handled(rules[k])
  {
  }

  /** A declared capability is not enough: the shipped configuration lets `softlib` hash with SM3,
      but no row translates it. */
  lemma SoftlibCannotHash(d: Device, payload: string, aux: string, keyRef: string)
    requires d.profile == SOFTLIB && d.devType == DevClassic
    ensures Translate(DomainHash, ActionHash, "sm3", payload, aux, keyRef, d).None?
  {
    AllInSlots();
    var k := FindRule(Rules(), d, DomainHash, ActionHash, "sm3", 0);
    if k.Some? { MatchIsSlot(Rules(), k.value, d, DomainHash, ActionHash, "sm3"); }
  }
}
