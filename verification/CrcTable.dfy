/** The table of the CRC, entry by entry. */
module CrcTable {
  import opened Crc16

  const ROW_00: seq<bv16> := [0x0000, 0x1021, 0x2042, 0x3063, 0x4084, 0x50a5, 0x60c6, 0x70e7]
  const ROW_08: seq<bv16> := [0x8108, 0x9129, 0xa14a, 0xb16b, 0xc18c, 0xd1ad, 0xe1ce, 0xf1ef]
  const ROW_10: seq<bv16> := [0x1231, 0x0210, 0x3273, 0x2252, 0x52b5, 0x4294, 0x72f7, 0x62d6]
  const ROW_18: seq<bv16> := [0x9339, 0x8318, 0xb37b, 0xa35a, 0xd3bd, 0xc39c, 0xf3ff, 0xe3de]
  const ROW_20: seq<bv16> := [0x2462, 0x3443, 0x0420, 0x1401, 0x64e6, 0x74c7, 0x44a4, 0x5485]
  const ROW_28: seq<bv16> := [0xa56a, 0xb54b, 0x8528, 0x9509, 0xe5ee, 0xf5cf, 0xc5ac, 0xd58d]
  const ROW_30: seq<bv16> := [0x3653, 0x2672, 0x1611, 0x0630, 0x76d7, 0x66f6, 0x5695, 0x46b4]
  const ROW_38: seq<bv16> := [0xb75b, 0xa77a, 0x9719, 0x8738, 0xf7df, 0xe7fe, 0xd79d, 0xc7bc]
  const ROW_40: seq<bv16> := [0x48c4, 0x58e5, 0x6886, 0x78a7, 0x0840, 0x1861, 0x2802, 0x3823]
  const ROW_48: seq<bv16> := [0xc9cc, 0xd9ed, 0xe98e, 0xf9af, 0x8948, 0x9969, 0xa90a, 0xb92b]
  const ROW_50: seq<bv16> := [0x5af5, 0x4ad4, 0x7ab7, 0x6a96, 0x1a71, 0x0a50, 0x3a33, 0x2a12]
  const ROW_58: seq<bv16> := [0xdbfd, 0xcbdc, 0xfbbf, 0xeb9e, 0x9b79, 0x8b58, 0xbb3b, 0xab1a]
  const ROW_60: seq<bv16> := [0x6ca6, 0x7c87, 0x4ce4, 0x5cc5, 0x2c22, 0x3c03, 0x0c60, 0x1c41]
  const ROW_68: seq<bv16> := [0xedae, 0xfd8f, 0xcdec, 0xddcd, 0xad2a, 0xbd0b, 0x8d68, 0x9d49]
  const ROW_70: seq<bv16> := [0x7e97, 0x6eb6, 0x5ed5, 0x4ef4, 0x3e13, 0x2e32, 0x1e51, 0x0e70]
  const ROW_78: seq<bv16> := [0xff9f, 0xefbe, 0xdfdd, 0xcffc, 0xbf1b, 0xaf3a, 0x9f59, 0x8f78]
  const ROW_80: seq<bv16> := [0x9188, 0x81a9, 0xb1ca, 0xa1eb, 0xd10c, 0xc12d, 0xf14e, 0xe16f]
  const ROW_88: seq<bv16> := [0x1080, 0x00a1, 0x30c2, 0x20e3, 0x5004, 0x4025, 0x7046, 0x6067]
  const ROW_90: seq<bv16> := [0x83b9, 0x9398, 0xa3fb, 0xb3da, 0xc33d, 0xd31c, 0xe37f, 0xf35e]
  const ROW_98: seq<bv16> := [0x02b1, 0x1290, 0x22f3, 0x32d2, 0x4235, 0x5214, 0x6277, 0x7256]
  const ROW_A0: seq<bv16> := [0xb5ea, 0xa5cb, 0x95a8, 0x8589, 0xf56e, 0xe54f, 0xd52c, 0xc50d]
  const ROW_A8: seq<bv16> := [0x34e2, 0x24c3, 0x14a0, 0x0481, 0x7466, 0x6447, 0x5424, 0x4405]
  const ROW_B0: seq<bv16> := [0xa7db, 0xb7fa, 0x8799, 0x97b8, 0xe75f, 0xf77e, 0xc71d, 0xd73c]
  const ROW_B8: seq<bv16> := [0x26d3, 0x36f2, 0x0691, 0x16b0, 0x6657, 0x7676, 0x4615, 0x5634]
  const ROW_C0: seq<bv16> := [0xd94c, 0xc96d, 0xf90e, 0xe92f, 0x99c8, 0x89e9, 0xb98a, 0xa9ab]
  const ROW_C8: seq<bv16> := [0x5844, 0x4865, 0x7806, 0x6827, 0x18c0, 0x08e1, 0x3882, 0x28a3]
  const ROW_D0: seq<bv16> := [0xcb7d, 0xdb5c, 0xeb3f, 0xfb1e, 0x8bf9, 0x9bd8, 0xabbb, 0xbb9a]
  const ROW_D8: seq<bv16> := [0x4a75, 0x5a54, 0x6a37, 0x7a16, 0x0af1, 0x1ad0, 0x2ab3, 0x3a92]
  const ROW_E0: seq<bv16> := [0xfd2e, 0xed0f, 0xdd6c, 0xcd4d, 0xbdaa, 0xad8b, 0x9de8, 0x8dc9]
  const ROW_E8: seq<bv16> := [0x7c26, 0x6c07, 0x5c64, 0x4c45, 0x3ca2, 0x2c83, 0x1ce0, 0x0cc1]
  const ROW_F0: seq<bv16> := [0xef1f, 0xff3e, 0xcf5d, 0xdf7c, 0xaf9b, 0xbfba, 0x8fd9, 0x9ff8]
  const ROW_F8: seq<bv16> := [0x6e17, 0x7e36, 0x4e55, 0x5e74, 0x2e93, 0x3eb2, 0x0ed1, 0x1ef0]

  /** The 256 entries, in rows of eight. */
  const CRC16TAB: seq<seq<bv16>> := [
    ROW_00, ROW_08, ROW_10, ROW_18, ROW_20, ROW_28, ROW_30, ROW_38,
    ROW_40, ROW_48, ROW_50, ROW_58, ROW_60, ROW_68, ROW_70, ROW_78,
    ROW_80, ROW_88, ROW_90, ROW_98, ROW_A0, ROW_A8, ROW_B0, ROW_B8,
    ROW_C0, ROW_C8, ROW_D0, ROW_D8, ROW_E0, ROW_E8, ROW_F0, ROW_F8
  ]

  function EntryRow(b: bv8): seq<bv16> {
    [Entry(b), Entry(b | 1), Entry(b | 2), Entry(b | 3), Entry(b | 4), Entry(b | 5), Entry(b | 6), Entry(b | 7)]
  }

  lemma RowsLow()
    ensures ROW_00 == EntryRow(0x00) && ROW_08 == EntryRow(0x08)
    ensures ROW_10 == EntryRow(0x10) && ROW_18 == EntryRow(0x18)
    ensures ROW_20 == EntryRow(0x20) && ROW_28 == EntryRow(0x28)
    ensures ROW_30 == EntryRow(0x30) && ROW_38 == EntryRow(0x38)
    ensures ROW_40 == EntryRow(0x40) && ROW_48 == EntryRow(0x48)
    ensures ROW_50 == EntryRow(0x50) && ROW_58 == EntryRow(0x58)
    ensures ROW_60 == EntryRow(0x60) && ROW_68 == EntryRow(0x68)
    ensures ROW_70 == EntryRow(0x70) && ROW_78 == EntryRow(0x78)
  {
  }

  lemma RowsHigh()
    ensures ROW_80 == EntryRow(0x80) && ROW_88 == EntryRow(0x88)
    ensures ROW_90 == EntryRow(0x90) && ROW_98 == EntryRow(0x98)
    ensures ROW_A0 == EntryRow(0xa0) && ROW_A8 == EntryRow(0xa8)
    ensures ROW_B0 == EntryRow(0xb0) && ROW_B8 == EntryRow(0xb8)
    ensures ROW_C0 == EntryRow(0xc0) && ROW_C8 == EntryRow(0xc8)
    ensures ROW_D0 == EntryRow(0xd0) && ROW_D8 == EntryRow(0xd8)
    ensures ROW_E0 == EntryRow(0xe0) && ROW_E8 == EntryRow(0xe8)
    ensures ROW_F0 == EntryRow(0xf0) && ROW_F8 == EntryRow(0xf8)
  {
  }

  lemma InRow(b: bv8, c: bv8)
    requires b & 7 == 0 && c < 8
    ensures EntryRow(b)[c as int] == Entry(b | c)
  {
    hide Entry;
    assert b | 0 == b;
    if c == 0 {
    } else if c == 1 {
    } else if c == 2 {
    } else if c == 3 {
    } else if c == 4 {
    } else if c == 5 {
    } else if c == 6 {
    } else {
      assert c == 7;
    }
  }

  lemma LowRight(i: bv8)
    requires i < 0x80
    ensures CRC16TAB[(i >> 3) as int] == EntryRow(i & 0xF8)
  {
    hide EntryRow;
    RowsLow();
    var b := i & 0xF8;
    if i >> 3 == 0 {
      assert b == 0x00;
    } else if i >> 3 == 1 {
      assert b == 0x08;
    } else if i >> 3 == 2 {
      assert b == 0x10;
    } else if i >> 3 == 3 {
      assert b == 0x18;
    } else if i >> 3 == 4 {
      assert b == 0x20;
    } else if i >> 3 == 5 {
      assert b == 0x28;
    } else if i >> 3 == 6 {
      assert b == 0x30;
    } else if i >> 3 == 7 {
      assert b == 0x38;
    } else if i >> 3 == 8 {
      assert b == 0x40;
    } else if i >> 3 == 9 {
      assert b == 0x48;
    } else if i >> 3 == 10 {
      assert b == 0x50;
    } else if i >> 3 == 11 {
      assert b == 0x58;
    } else if i >> 3 == 12 {
      assert b == 0x60;
    } else if i >> 3 == 13 {
      assert b == 0x68;
    } else if i >> 3 == 14 {
      assert b == 0x70;
    } else if i >> 3 == 15 {
      assert b == 0x78;
    }
  }

  lemma HighRight(i: bv8)
    requires i >= 0x80
    ensures CRC16TAB[(i >> 3) as int] == EntryRow(i & 0xF8)
  {
    hide EntryRow;
    RowsHigh();
    var b := i & 0xF8;
    if i >> 3 == 16 {
      assert b == 0x80;
    } else if i >> 3 == 17 {
      assert b == 0x88;
    } else if i >> 3 == 18 {
      assert b == 0x90;
    } else if i >> 3 == 19 {
      assert b == 0x98;
    } else if i >> 3 == 20 {
      assert b == 0xa0;
    } else if i >> 3 == 21 {
      assert b == 0xa8;
    } else if i >> 3 == 22 {
      assert b == 0xb0;
    } else if i >> 3 == 23 {
      assert b == 0xb8;
    } else if i >> 3 == 24 {
      assert b == 0xc0;
    } else if i >> 3 == 25 {
      assert b == 0xc8;
    } else if i >> 3 == 26 {
      assert b == 0xd0;
    } else if i >> 3 == 27 {
      assert b == 0xd8;
    } else if i >> 3 == 28 {
      assert b == 0xe0;
    } else if i >> 3 == 29 {
      assert b == 0xe8;
    } else if i >> 3 == 30 {
      assert b == 0xf0;
    } else if i >> 3 == 31 {
      assert b == 0xf8;
    }
  }

  /** Every entry of the table is eight shifts of its index. */
  lemma TableRight(i: bv8)
    ensures |CRC16TAB| == 32 && |CRC16TAB[(i >> 3) as int]| == 8
    ensures CRC16TAB[(i >> 3) as int][(i & 7) as int] == Entry(i)
  {
    hide Entry;
    if i < 0x80 {
      LowRight(i);
    } else {
      HighRight(i);
    }
    InRow(i & 0xF8, i & 7);
    assert (i & 0xF8) | (i & 7) == i;
  }
}
