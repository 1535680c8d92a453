/**
 The worked example of FIPS 197, appendix B, which the test benches use: key schedule,
 state after every round and ciphertext.
 */
module AesVectors {
  import opened AesField
  import opened AesCipher
  import opened AesCore

  /** The round keys of the example key, as appendix A.1 lists them. */
  function ExampleKey(r: nat): Block
    requires r <= 10
  {
    match r
    case 0 =>
      Block(Column(0x2b, 0x7e, 0x15, 0x16), Column(0x28, 0xae, 0xd2, 0xa6),
            Column(0xab, 0xf7, 0x15, 0x88), Column(0x09, 0xcf, 0x4f, 0x3c))
    case 1 =>
      Block(Column(0xa0, 0xfa, 0xfe, 0x17), Column(0x88, 0x54, 0x2c, 0xb1),
            Column(0x23, 0xa3, 0x39, 0x39), Column(0x2a, 0x6c, 0x76, 0x05))
    case 2 =>
      Block(Column(0xf2, 0xc2, 0x95, 0xf2), Column(0x7a, 0x96, 0xb9, 0x43),
            Column(0x59, 0x35, 0x80, 0x7a), Column(0x73, 0x59, 0xf6, 0x7f))
    case 3 =>
      Block(Column(0x3d, 0x80, 0x47, 0x7d), Column(0x47, 0x16, 0xfe, 0x3e),
            Column(0x1e, 0x23, 0x7e, 0x44), Column(0x6d, 0x7a, 0x88, 0x3b))
    case 4 =>
      Block(Column(0xef, 0x44, 0xa5, 0x41), Column(0xa8, 0x52, 0x5b, 0x7f),
            Column(0xb6, 0x71, 0x25, 0x3b), Column(0xdb, 0x0b, 0xad, 0x00))
    case 5 =>
      Block(Column(0xd4, 0xd1, 0xc6, 0xf8), Column(0x7c, 0x83, 0x9d, 0x87),
            Column(0xca, 0xf2, 0xb8, 0xbc), Column(0x11, 0xf9, 0x15, 0xbc))
    case 6 =>
      Block(Column(0x6d, 0x88, 0xa3, 0x7a), Column(0x11, 0x0b, 0x3e, 0xfd),
            Column(0xdb, 0xf9, 0x86, 0x41), Column(0xca, 0x00, 0x93, 0xfd))
    case 7 =>
      Block(Column(0x4e, 0x54, 0xf7, 0x0e), Column(0x5f, 0x5f, 0xc9, 0xf3),
            Column(0x84, 0xa6, 0x4f, 0xb2), Column(0x4e, 0xa6, 0xdc, 0x4f))
    case 8 =>
      Block(Column(0xea, 0xd2, 0x73, 0x21), Column(0xb5, 0x8d, 0xba, 0xd2),
            Column(0x31, 0x2b, 0xf5, 0x60), Column(0x7f, 0x8d, 0x29, 0x2f))
    case 9 =>
      Block(Column(0xac, 0x77, 0x66, 0xf3), Column(0x19, 0xfa, 0xdc, 0x21),
            Column(0x28, 0xd1, 0x29, 0x41), Column(0x57, 0x5c, 0x00, 0x6e))
    case _ =>
      Block(Column(0xd0, 0x14, 0xf9, 0xa8), Column(0xc9, 0xee, 0x25, 0x89),
            Column(0xe1, 0x3f, 0x0c, 0xc8), Column(0xb6, 0x63, 0x0c, 0xa6))
  }

  /** The state after `r` rounds. */
  function ExampleState(r: nat): Block
    requires r <= 10
  {
    match r
    case 0 =>
      Block(Column(0x19, 0x3d, 0xe3, 0xbe), Column(0xa0, 0xf4, 0xe2, 0x2b),
            Column(0x9a, 0xc6, 0x8d, 0x2a), Column(0xe9, 0xf8, 0x48, 0x08))
    case 1 =>
      Block(Column(0xa4, 0x9c, 0x7f, 0xf2), Column(0x68, 0x9f, 0x35, 0x2b),
            Column(0x6b, 0x5b, 0xea, 0x43), Column(0x02, 0x6a, 0x50, 0x49))
    case 2 =>
      Block(Column(0xaa, 0x8f, 0x5f, 0x03), Column(0x61, 0xdd, 0xe3, 0xef),
            Column(0x82, 0xd2, 0x4a, 0xd2), Column(0x68, 0x32, 0x46, 0x9a))
    case 3 =>
      Block(Column(0x48, 0x6c, 0x4e, 0xee), Column(0x67, 0x1d, 0x9d, 0x0d),
            Column(0x4d, 0xe3, 0xb1, 0x38), Column(0xd6, 0x5f, 0x58, 0xe7))
    case 4 =>
      Block(Column(0xe0, 0x92, 0x7f, 0xe8), Column(0xc8, 0x63, 0x63, 0xc0),
            Column(0xd9, 0xb1, 0x35, 0x50), Column(0x85, 0xb8, 0xbe, 0x01))
    case 5 =>
      Block(Column(0xf1, 0x00, 0x6f, 0x55), Column(0xc1, 0x92, 0x4c, 0xef),
            Column(0x7c, 0xc8, 0x8b, 0x32), Column(0x5d, 0xb5, 0xd5, 0x0c))
    case 6 =>
      Block(Column(0x26, 0x0e, 0x2e, 0x17), Column(0x3d, 0x41, 0xb7, 0x7d),
            Column(0xe8, 0x64, 0x72, 0xa9), Column(0xfd, 0xd2, 0x8b, 0x25))
    case 7 =>
      Block(Column(0x5a, 0x41, 0x42, 0xb1), Column(0x19, 0x49, 0xdc, 0x1f),
            Column(0xa3, 0xe0, 0x19, 0x65), Column(0x7a, 0x8c, 0x04, 0x0c))
    case 8 =>
      Block(Column(0xea, 0x83, 0x5c, 0xf0), Column(0x04, 0x45, 0x33, 0x2d),
            Column(0x65, 0x5d, 0x98, 0xad), Column(0x85, 0x96, 0xb0, 0xc5))
    case 9 =>
      Block(Column(0xeb, 0x40, 0xf2, 0x1e), Column(0x59, 0x2e, 0x38, 0x84),
            Column(0x8b, 0xa1, 0x13, 0xe7), Column(0x1b, 0xc3, 0x42, 0xd2))
    case _ =>
      Block(Column(0x39, 0x25, 0x84, 0x1d), Column(0x02, 0xdc, 0x09, 0xfb),
            Column(0xdc, 0x11, 0x85, 0x97), Column(0x19, 0x6a, 0x0b, 0x32))
  }

  const PLAINTEXT :=
    Block(Column(0x32, 0x43, 0xf6, 0xa8), Column(0x88, 0x5a, 0x30, 0x8d),
          Column(0x31, 0x31, 0x98, 0xa2), Column(0xe0, 0x37, 0x07, 0x34))

  // ---- The key schedule -------------------------------------------------------------------

  lemma KeyWordsLow()
    ensures SubWord(Column(0xcf, 0x4f, 0x3c, 0x09)) == Column(0x8a, 0x84, 0xeb, 0x01)
    ensures SubWord(Column(0x6c, 0x76, 0x05, 0x2a)) == Column(0x50, 0x38, 0x6b, 0xe5)
    ensures SubWord(Column(0x59, 0xf6, 0x7f, 0x73)) == Column(0xcb, 0x42, 0xd2, 0x8f)
    ensures SubWord(Column(0x7a, 0x88, 0x3b, 0x6d)) == Column(0xda, 0xc4, 0xe2, 0x3c)
    ensures SubWord(Column(0x0b, 0xad, 0x00, 0xdb)) == Column(0x2b, 0x95, 0x63, 0xb9)
  {
  }

  lemma KeyWordsHigh()
    ensures SubWord(Column(0xf9, 0x15, 0xbc, 0x11)) == Column(0x99, 0x59, 0x65, 0x82)
    ensures SubWord(Column(0x00, 0x93, 0xfd, 0xca)) == Column(0x63, 0xdc, 0x54, 0x74)
    ensures SubWord(Column(0xa6, 0xdc, 0x4f, 0x4e)) == Column(0x24, 0x86, 0x84, 0x2f)
    ensures SubWord(Column(0x8d, 0x29, 0x2f, 0x7f)) == Column(0x5d, 0xa5, 0x15, 0xd2)
    ensures SubWord(Column(0x5c, 0x00, 0x6e, 0x57)) == Column(0x4a, 0x63, 0x9f, 0x5b)
  {
  }

  lemma Key1()
    ensures NextKey(ExampleKey(0), 0x01) == ExampleKey(1)
  {
    hide SubWord;
    KeyWordsLow();
  }

  lemma Key2()
    ensures NextKey(ExampleKey(1), 0x02) == ExampleKey(2)
  {
    hide SubWord;
    KeyWordsLow();
  }

  lemma Key3()
    ensures NextKey(ExampleKey(2), 0x04) == ExampleKey(3)
  {
    hide SubWord;
    KeyWordsLow();
  }

  lemma Key4()
    ensures NextKey(ExampleKey(3), 0x08) == ExampleKey(4)
  {
    hide SubWord;
    KeyWordsLow();
  }

  lemma Key5()
    ensures NextKey(ExampleKey(4), 0x10) == ExampleKey(5)
  {
    hide SubWord;
    KeyWordsLow();
  }

  lemma Key6()
    ensures NextKey(ExampleKey(5), 0x20) == ExampleKey(6)
  {
    hide SubWord;
    KeyWordsHigh();
  }

  lemma Key7()
    ensures NextKey(ExampleKey(6), 0x40) == ExampleKey(7)
  {
    hide SubWord;
    KeyWordsHigh();
  }

  lemma Key8()
    ensures NextKey(ExampleKey(7), 0x80) == ExampleKey(8)
  {
    hide SubWord;
    KeyWordsHigh();
  }

  lemma Key9()
    ensures NextKey(ExampleKey(8), 0x1b) == ExampleKey(9)
  {
    hide SubWord;
    KeyWordsHigh();
  }

  lemma Key10()
    ensures NextKey(ExampleKey(9), 0x36) == ExampleKey(10)
  {
    hide SubWord;
    KeyWordsHigh();
  }

  lemma ExampleKeys(r: nat)
    requires 1 <= r <= 10
    ensures NextKey(ExampleKey(r - 1), XtimePow(r - 1)) == ExampleKey(r)
  {
    hide NextKey, ExampleKey, XtimePow;
    XtimePowers();
    match r
    case 1 => Key1();
    case 2 => Key2();
    case 3 => Key3();
    case 4 => Key4();
    case 5 => Key5();
    case 6 => Key6();
    case 7 => Key7();
    case 8 => Key8();
    case 9 => Key9();
    case _ => Key10();
  }

  /** Appendix A.1: the expanded key. */
  lemma {:induction false} KeyExpands(r: nat)
    requires r <= 10
    ensures RoundKey(ExampleKey(0), r) == ExampleKey(r)
  {
    hide NextKey, ExampleKey, ScheduleWord, XtimePow;
    if r == 0 {
      ScheduleStart(ExampleKey(0));
    } else {
      KeyExpands(r - 1);
      NextKeyMeaning(ExampleKey(0), r);
      ExampleKeys(r);
    }
  }

  // ---- The rounds ------------------------------------------------------------------------------

  lemma Start()
    ensures AddRoundKey(PLAINTEXT, ExampleKey(0)) == ExampleState(0)
  {
  }

  lemma Substituted1()
    ensures SubWord(Column(0x19, 0x3d, 0xe3, 0xbe)) == Column(0xd4, 0x27, 0x11, 0xae)
    ensures SubWord(Column(0xa0, 0xf4, 0xe2, 0x2b)) == Column(0xe0, 0xbf, 0x98, 0xf1)
    ensures SubWord(Column(0x9a, 0xc6, 0x8d, 0x2a)) == Column(0xb8, 0xb4, 0x5d, 0xe5)
    ensures SubWord(Column(0xe9, 0xf8, 0x48, 0x08)) == Column(0x1e, 0x41, 0x52, 0x30)
  {
  }

  lemma Mixed1()
    ensures MixColumn(Column(0xd4, 0xbf, 0x5d, 0x30)) == Column(0x04, 0x66, 0x81, 0xe5)
    ensures MixColumn(Column(0xe0, 0xb4, 0x52, 0xae)) == Column(0xe0, 0xcb, 0x19, 0x9a)
    ensures MixColumn(Column(0xb8, 0x41, 0x11, 0xf1)) == Column(0x48, 0xf8, 0xd3, 0x7a)
    ensures MixColumn(Column(0x1e, 0x27, 0x98, 0xe5)) == Column(0x28, 0x06, 0x26, 0x4c)
  {
  }

  lemma Round1()
    ensures Round(ExampleState(0), ExampleKey(1)) == ExampleState(1)
  {
    hide SubWord, MixColumn;
    Substituted1();
    Mixed1();
  }

  lemma Substituted2()
    ensures SubWord(Column(0xa4, 0x9c, 0x7f, 0xf2)) == Column(0x49, 0xde, 0xd2, 0x89)
    ensures SubWord(Column(0x68, 0x9f, 0x35, 0x2b)) == Column(0x45, 0xdb, 0x96, 0xf1)
    ensures SubWord(Column(0x6b, 0x5b, 0xea, 0x43)) == Column(0x7f, 0x39, 0x87, 0x1a)
    ensures SubWord(Column(0x02, 0x6a, 0x50, 0x49)) == Column(0x77, 0x02, 0x53, 0x3b)
  {
  }

  lemma Mixed2()
    ensures MixColumn(Column(0x49, 0xdb, 0x87, 0x3b)) == Column(0x58, 0x4d, 0xca, 0xf1)
    ensures MixColumn(Column(0x45, 0x39, 0x53, 0x89)) == Column(0x1b, 0x4b, 0x5a, 0xac)
    ensures MixColumn(Column(0x7f, 0x02, 0xd2, 0xf1)) == Column(0xdb, 0xe7, 0xca, 0xa8)
    ensures MixColumn(Column(0x77, 0xde, 0x96, 0x1a)) == Column(0x1b, 0x6b, 0xb0, 0xe5)
  {
  }

  lemma Round2()
    ensures Round(ExampleState(1), ExampleKey(2)) == ExampleState(2)
  {
    hide SubWord, MixColumn;
    Substituted2();
    Mixed2();
  }

  lemma Substituted3()
    ensures SubWord(Column(0xaa, 0x8f, 0x5f, 0x03)) == Column(0xac, 0x73, 0xcf, 0x7b)
    ensures SubWord(Column(0x61, 0xdd, 0xe3, 0xef)) == Column(0xef, 0xc1, 0x11, 0xdf)
    ensures SubWord(Column(0x82, 0xd2, 0x4a, 0xd2)) == Column(0x13, 0xb5, 0xd6, 0xb5)
    ensures SubWord(Column(0x68, 0x32, 0x46, 0x9a)) == Column(0x45, 0x23, 0x5a, 0xb8)
  {
  }

  lemma Mixed3()
    ensures MixColumn(Column(0xac, 0xc1, 0xd6, 0xb8)) == Column(0x75, 0xec, 0x09, 0x93)
    ensures MixColumn(Column(0xef, 0xb5, 0x5a, 0x7b)) == Column(0x20, 0x0b, 0x63, 0x33)
    ensures MixColumn(Column(0x13, 0x23, 0xcf, 0xdf)) == Column(0x53, 0xc0, 0xcf, 0x7c)
    ensures MixColumn(Column(0x45, 0x73, 0x11, 0xb5)) == Column(0xbb, 0x25, 0xd0, 0xdc)
  {
  }

  lemma Round3()
    ensures Round(ExampleState(2), ExampleKey(3)) == ExampleState(3)
  {
    hide SubWord, MixColumn;
    Substituted3();
    Mixed3();
  }

  lemma Substituted4()
    ensures SubWord(Column(0x48, 0x6c, 0x4e, 0xee)) == Column(0x52, 0x50, 0x2f, 0x28)
    ensures SubWord(Column(0x67, 0x1d, 0x9d, 0x0d)) == Column(0x85, 0xa4, 0x5e, 0xd7)
    ensures SubWord(Column(0x4d, 0xe3, 0xb1, 0x38)) == Column(0xe3, 0x11, 0xc8, 0x07)
    ensures SubWord(Column(0xd6, 0x5f, 0x58, 0xe7)) == Column(0xf6, 0xcf, 0x6a, 0x94)
  {
  }

  lemma Mixed4()
    ensures MixColumn(Column(0x52, 0xa4, 0xc8, 0x94)) == Column(0x0f, 0xd6, 0xda, 0xa9)
    ensures MixColumn(Column(0x85, 0x11, 0x6a, 0x28)) == Column(0x60, 0x31, 0x38, 0xbf)
    ensures MixColumn(Column(0xe3, 0xcf, 0x2f, 0xd7)) == Column(0x6f, 0xc0, 0x10, 0x6b)
    ensures MixColumn(Column(0xf6, 0x50, 0x5e, 0x07)) == Column(0x5e, 0xb3, 0x13, 0x01)
  {
  }

  lemma Round4()
    ensures Round(ExampleState(3), ExampleKey(4)) == ExampleState(4)
  {
    hide SubWord, MixColumn;
    Substituted4();
    Mixed4();
  }

  lemma Substituted5()
    ensures SubWord(Column(0xe0, 0x92, 0x7f, 0xe8)) == Column(0xe1, 0x4f, 0xd2, 0x9b)
    ensures SubWord(Column(0xc8, 0x63, 0x63, 0xc0)) == Column(0xe8, 0xfb, 0xfb, 0xba)
    ensures SubWord(Column(0xd9, 0xb1, 0x35, 0x50)) == Column(0x35, 0xc8, 0x96, 0x53)
    ensures SubWord(Column(0x85, 0xb8, 0xbe, 0x01)) == Column(0x97, 0x6c, 0xae, 0x7c)
  {
  }

  lemma Mixed5()
    ensures MixColumn(Column(0xe1, 0xfb, 0x96, 0x7c)) == Column(0x25, 0xd1, 0xa9, 0xad)
    ensures MixColumn(Column(0xe8, 0xc8, 0xae, 0x9b)) == Column(0xbd, 0x11, 0xd1, 0x68)
    ensures MixColumn(Column(0x35, 0x6c, 0xd2, 0xba)) == Column(0xb6, 0x3a, 0x33, 0x8e)
    ensures MixColumn(Column(0x97, 0x4f, 0xfb, 0x53)) == Column(0x4c, 0x4c, 0xc0, 0xb0)
  {
  }

  lemma Round5()
    ensures Round(ExampleState(4), ExampleKey(5)) == ExampleState(5)
  {
    hide SubWord, MixColumn;
    Substituted5();
    Mixed5();
  }

  lemma Substituted6()
    ensures SubWord(Column(0xf1, 0x00, 0x6f, 0x55)) == Column(0xa1, 0x63, 0xa8, 0xfc)
    ensures SubWord(Column(0xc1, 0x92, 0x4c, 0xef)) == Column(0x78, 0x4f, 0x29, 0xdf)
    ensures SubWord(Column(0x7c, 0xc8, 0x8b, 0x32)) == Column(0x10, 0xe8, 0x3d, 0x23)
    ensures SubWord(Column(0x5d, 0xb5, 0xd5, 0x0c)) == Column(0x4c, 0xd5, 0x03, 0xfe)
  {
  }

  lemma Mixed6()
    ensures MixColumn(Column(0xa1, 0x4f, 0x3d, 0xfe)) == Column(0x4b, 0x86, 0x8d, 0x6d)
    ensures MixColumn(Column(0x78, 0xe8, 0x03, 0xfc)) == Column(0x2c, 0x4a, 0x89, 0x80)
    ensures MixColumn(Column(0x10, 0xd5, 0xa8, 0xdf)) == Column(0x33, 0x9d, 0xf4, 0xe8)
    ensures MixColumn(Column(0x4c, 0x63, 0x29, 0x23)) == Column(0x37, 0xd2, 0x18, 0xd8)
  {
  }

  lemma Round6()
    ensures Round(ExampleState(5), ExampleKey(6)) == ExampleState(6)
  {
    hide SubWord, MixColumn;
    Substituted6();
    Mixed6();
  }

  lemma Substituted7()
    ensures SubWord(Column(0x26, 0x0e, 0x2e, 0x17)) == Column(0xf7, 0xab, 0x31, 0xf0)
    ensures SubWord(Column(0x3d, 0x41, 0xb7, 0x7d)) == Column(0x27, 0x83, 0xa9, 0xff)
    ensures SubWord(Column(0xe8, 0x64, 0x72, 0xa9)) == Column(0x9b, 0x43, 0x40, 0xd3)
    ensures SubWord(Column(0xfd, 0xd2, 0x8b, 0x25)) == Column(0x54, 0xb5, 0x3d, 0x3f)
  {
  }

  lemma Mixed7()
    ensures MixColumn(Column(0xf7, 0x83, 0x40, 0x3f)) == Column(0x14, 0x15, 0xb5, 0xbf)
    ensures MixColumn(Column(0x27, 0x43, 0x3d, 0xf0)) == Column(0x46, 0x16, 0x15, 0xec)
    ensures MixColumn(Column(0x9b, 0xb5, 0x31, 0xff)) == Column(0x27, 0x46, 0x56, 0xd7)
    ensures MixColumn(Column(0x54, 0xab, 0xa9, 0xd3)) == Column(0x34, 0x2a, 0xd8, 0x43)
  {
  }

  lemma Round7()
    ensures Round(ExampleState(6), ExampleKey(7)) == ExampleState(7)
  {
    hide SubWord, MixColumn;
    Substituted7();
    Mixed7();
  }

  lemma Substituted8()
    ensures SubWord(Column(0x5a, 0x41, 0x42, 0xb1)) == Column(0xbe, 0x83, 0x2c, 0xc8)
    ensures SubWord(Column(0x19, 0x49, 0xdc, 0x1f)) == Column(0xd4, 0x3b, 0x86, 0xc0)
    ensures SubWord(Column(0xa3, 0xe0, 0x19, 0x65)) == Column(0x0a, 0xe1, 0xd4, 0x4d)
    ensures SubWord(Column(0x7a, 0x8c, 0x04, 0x0c)) == Column(0xda, 0x64, 0xf2, 0xfe)
  {
  }

  lemma Mixed8()
    ensures MixColumn(Column(0xbe, 0x3b, 0xd4, 0xfe)) == Column(0x00, 0x51, 0x2f, 0xd1)
    ensures MixColumn(Column(0xd4, 0xe1, 0xf2, 0xc8)) == Column(0xb1, 0xc8, 0x89, 0xff)
    ensures MixColumn(Column(0x0a, 0x64, 0x2c, 0xc0)) == Column(0x54, 0x76, 0x6d, 0xcd)
    ensures MixColumn(Column(0xda, 0x83, 0x86, 0x4d)) == Column(0xfa, 0x1b, 0x99, 0xea)
  {
  }

  lemma Round8()
    ensures Round(ExampleState(7), ExampleKey(8)) == ExampleState(8)
  {
    hide SubWord, MixColumn;
    Substituted8();
    Mixed8();
  }

  lemma Substituted9()
    ensures SubWord(Column(0xea, 0x83, 0x5c, 0xf0)) == Column(0x87, 0xec, 0x4a, 0x8c)
    ensures SubWord(Column(0x04, 0x45, 0x33, 0x2d)) == Column(0xf2, 0x6e, 0xc3, 0xd8)
    ensures SubWord(Column(0x65, 0x5d, 0x98, 0xad)) == Column(0x4d, 0x4c, 0x46, 0x95)
    ensures SubWord(Column(0x85, 0x96, 0xb0, 0xc5)) == Column(0x97, 0x90, 0xe7, 0xa6)
  {
  }

  lemma Mixed9()
    ensures MixColumn(Column(0x87, 0x6e, 0x46, 0xa6)) == Column(0x47, 0x37, 0x94, 0xed)
    ensures MixColumn(Column(0xf2, 0x4c, 0xe7, 0x8c)) == Column(0x40, 0xd4, 0xe4, 0xa5)
    ensures MixColumn(Column(0x4d, 0x90, 0x4a, 0xd8)) == Column(0xa3, 0x70, 0x3a, 0xa6)
    ensures MixColumn(Column(0x97, 0xec, 0xc3, 0x95)) == Column(0x4c, 0x9f, 0x42, 0xbc)
  {
  }

  lemma Round9()
    ensures Round(ExampleState(8), ExampleKey(9)) == ExampleState(9)
  {
    hide SubWord, MixColumn;
    Substituted9();
    Mixed9();
  }

  lemma Substituted10()
    ensures SubWord(Column(0xeb, 0x40, 0xf2, 0x1e)) == Column(0xe9, 0x09, 0x89, 0x72)
    ensures SubWord(Column(0x59, 0x2e, 0x38, 0x84)) == Column(0xcb, 0x31, 0x07, 0x5f)
    ensures SubWord(Column(0x8b, 0xa1, 0x13, 0xe7)) == Column(0x3d, 0x32, 0x7d, 0x94)
    ensures SubWord(Column(0x1b, 0xc3, 0x42, 0xd2)) == Column(0xaf, 0x2e, 0x2c, 0xb5)
  {
  }

  lemma Round10()
    ensures FinalRound(ExampleState(9), ExampleKey(10)) == ExampleState(10)
  {
    hide SubWord, MixColumn;
    Substituted10();
  }

  lemma ExampleRounds(r: nat)
    requires 1 <= r <= 9
    ensures Round(ExampleState(r - 1), ExampleKey(r)) == ExampleState(r)
  {
    hide Round, ExampleKey, ExampleState;
    match r
    case 1 => Round1();
    case 2 => Round2();
    case 3 => Round3();
    case 4 => Round4();
    case 5 => Round5();
    case 6 => Round6();
    case 7 => Round7();
    case 8 => Round8();
    case _ => Round9();
  }

  lemma {:induction false} RoundsRun(r: nat)
    requires r <= 9
    ensures AfterRounds(Schedule(ExampleKey(0)), PLAINTEXT, r) == ExampleState(r)
  {
    hide Round, FinalRound, AddRoundKey, ExampleKey, ExampleState, RoundKey;
    KeyExpands(r);
    if r == 0 {
      Start();
    } else {
      RoundsRun(r - 1);
      ExampleRounds(r);
    }
  }

  /** Appendix B: 3243f6a8 885a308d 313198a2 e0370734 under 2b7e1516 28aed2a6 abf71588
      09cf4f3c becomes 3925841d 02dc09fb dc118597 196a0b32. */
  lemma ExampleEncrypts()
    ensures Encrypt(ExampleKey(0), PLAINTEXT) == ExampleState(10)
  {
    hide Round, FinalRound, AddRoundKey, ExampleKey, ExampleState, RoundKey;
    RoundsRun(9);
    KeyExpands(10);
    Round10();
  }
}
