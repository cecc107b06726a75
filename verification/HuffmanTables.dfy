/**
 The two constant tables of the Huffman codec: the code of every symbol, and
 the automaton that reads a code four bits at a time. Lookups are binary
 decision trees over the index.
 */
module HuffmanTables {
  import opened MachineWords

  /** A code as the table writes it: its length and its bits, aligned to the right. */
  datatype Code = Code(nbits: nat, code: nat)

  /** One automaton cell: next state, decoded byte, flags. */
  datatype Entry = E(state: u8, byte: u8, flags: u8)

  /** A row of sixteen cells, one a nibble, four a line as the table writes them. */
  datatype Quad = Q(e0: Entry, e1: Entry, e2: Entry, e3: Entry)
  datatype Row = R(q0: Quad, q1: Quad, q2: Quad, q3: Quad) {
    function At(n: nat): Entry
      requires n < 16
    {
      var q := if n < 4 then q0 else if n < 8 then q1 else if n < 12 then q2 else q3;
      if n % 4 == 0 then q.e0 else if n % 4 == 1 then q.e1 else if n % 4 == 2 then q.e2 else q.e3
    }
  }

  // The three flag bits of a cell.
  predicate MaybeEos(flags: u8) { flags % 2 == 1 }
  predicate Decoded(flags: u8) { flags / 2 % 2 == 1 }
  predicate Error(flags: u8) { flags / 4 % 2 == 1 }

  const EOS: nat := 256

  /** `HUFFMAN_ENCODE[symbol]`; the last of the 257 entries is EOS. */
  function EncodeEntry(symbol: nat): Code {
    if symbol < 0x100 then
      if symbol < 0x80 then
        if symbol < 0x40 then
          if symbol < 0x20 then
            if symbol < 0x10 then
              if symbol < 0x08 then
                if symbol < 0x04 then
                  (if symbol < 2 then (if symbol < 1 then Code(13, 0x1ff8) else Code(23, 0x7fffd8)) else (if symbol < 3 then Code(28, 0xfffffe2) else Code(28, 0xfffffe3)))
                else
                  (if symbol < 6 then (if symbol < 5 then Code(28, 0xfffffe4) else Code(28, 0xfffffe5)) else (if symbol < 7 then Code(28, 0xfffffe6) else Code(28, 0xfffffe7)))
              else
                if symbol < 0x0c then
                  (if symbol < 10 then (if symbol < 9 then Code(28, 0xfffffe8) else Code(24, 0xffffea)) else (if symbol < 11 then Code(30, 0x3ffffffc) else Code(28, 0xfffffe9)))
                else
                  (if symbol < 14 then (if symbol < 13 then Code(28, 0xfffffea) else Code(30, 0x3ffffffd)) else (if symbol < 15 then Code(28, 0xfffffeb) else Code(28, 0xfffffec)))
            else
              if symbol < 0x18 then
                if symbol < 0x14 then
                  (if symbol < 18 then (if symbol < 17 then Code(28, 0xfffffed) else Code(28, 0xfffffee)) else (if symbol < 19 then Code(28, 0xfffffef) else Code(28, 0xffffff0)))
                else
                  (if symbol < 22 then (if symbol < 21 then Code(28, 0xffffff1) else Code(28, 0xffffff2)) else (if symbol < 23 then Code(30, 0x3ffffffe) else Code(28, 0xffffff3)))
              else
                if symbol < 0x1c then
                  (if symbol < 26 then (if symbol < 25 then Code(28, 0xffffff4) else Code(28, 0xffffff5)) else (if symbol < 27 then Code(28, 0xffffff6) else Code(28, 0xffffff7)))
                else
                  (if symbol < 30 then (if symbol < 29 then Code(28, 0xffffff8) else Code(28, 0xffffff9)) else (if symbol < 31 then Code(28, 0xffffffa) else Code(28, 0xffffffb)))
          else
            if symbol < 0x30 then
              if symbol < 0x28 then
                if symbol < 0x24 then
                  (if symbol < 34 then (if symbol < 33 then Code(6, 0x14) else Code(10, 0x3f8)) else (if symbol < 35 then Code(10, 0x3f9) else Code(12, 0xffa)))
                else
                  (if symbol < 38 then (if symbol < 37 then Code(13, 0x1ff9) else Code(6, 0x15)) else (if symbol < 39 then Code(8, 0xf8) else Code(11, 0x7fa)))
              else
                if symbol < 0x2c then
                  (if symbol < 42 then (if symbol < 41 then Code(10, 0x3fa) else Code(10, 0x3fb)) else (if symbol < 43 then Code(8, 0xf9) else Code(11, 0x7fb)))
                else
                  (if symbol < 46 then (if symbol < 45 then Code(8, 0xfa) else Code(6, 0x16)) else (if symbol < 47 then Code(6, 0x17) else Code(6, 0x18)))
            else
              if symbol < 0x38 then
                if symbol < 0x34 then
                  (if symbol < 50 then (if symbol < 49 then Code(5, 0x0) else Code(5, 0x1)) else (if symbol < 51 then Code(5, 0x2) else Code(6, 0x19)))
                else
                  (if symbol < 54 then (if symbol < 53 then Code(6, 0x1a) else Code(6, 0x1b)) else (if symbol < 55 then Code(6, 0x1c) else Code(6, 0x1d)))
              else
                if symbol < 0x3c then
                  (if symbol < 58 then (if symbol < 57 then Code(6, 0x1e) else Code(6, 0x1f)) else (if symbol < 59 then Code(7, 0x5c) else Code(8, 0xfb)))
                else
                  (if symbol < 62 then (if symbol < 61 then Code(15, 0x7ffc) else Code(6, 0x20)) else (if symbol < 63 then Code(12, 0xffb) else Code(10, 0x3fc)))
        else
          if symbol < 0x60 then
            if symbol < 0x50 then
              if symbol < 0x48 then
                if symbol < 0x44 then
                  (if symbol < 66 then (if symbol < 65 then Code(13, 0x1ffa) else Code(6, 0x21)) else (if symbol < 67 then Code(7, 0x5d) else Code(7, 0x5e)))
                else
                  (if symbol < 70 then (if symbol < 69 then Code(7, 0x5f) else Code(7, 0x60)) else (if symbol < 71 then Code(7, 0x61) else Code(7, 0x62)))
              else
                if symbol < 0x4c then
                  (if symbol < 74 then (if symbol < 73 then Code(7, 0x63) else Code(7, 0x64)) else (if symbol < 75 then Code(7, 0x65) else Code(7, 0x66)))
                else
                  (if symbol < 78 then (if symbol < 77 then Code(7, 0x67) else Code(7, 0x68)) else (if symbol < 79 then Code(7, 0x69) else Code(7, 0x6a)))
            else
              if symbol < 0x58 then
                if symbol < 0x54 then
                  (if symbol < 82 then (if symbol < 81 then Code(7, 0x6b) else Code(7, 0x6c)) else (if symbol < 83 then Code(7, 0x6d) else Code(7, 0x6e)))
                else
                  (if symbol < 86 then (if symbol < 85 then Code(7, 0x6f) else Code(7, 0x70)) else (if symbol < 87 then Code(7, 0x71) else Code(7, 0x72)))
              else
                if symbol < 0x5c then
                  (if symbol < 90 then (if symbol < 89 then Code(8, 0xfc) else Code(7, 0x73)) else (if symbol < 91 then Code(8, 0xfd) else Code(13, 0x1ffb)))
                else
                  (if symbol < 94 then (if symbol < 93 then Code(19, 0x7fff0) else Code(13, 0x1ffc)) else (if symbol < 95 then Code(14, 0x3ffc) else Code(6, 0x22)))
          else
            if symbol < 0x70 then
              if symbol < 0x68 then
                if symbol < 0x64 then
                  (if symbol < 98 then (if symbol < 97 then Code(15, 0x7ffd) else Code(5, 0x3)) else (if symbol < 99 then Code(6, 0x23) else Code(5, 0x4)))
                else
                  (if symbol < 102 then (if symbol < 101 then Code(6, 0x24) else Code(5, 0x5)) else (if symbol < 103 then Code(6, 0x25) else Code(6, 0x26)))
              else
                if symbol < 0x6c then
                  (if symbol < 106 then (if symbol < 105 then Code(6, 0x27) else Code(5, 0x6)) else (if symbol < 107 then Code(7, 0x74) else Code(7, 0x75)))
                else
                  (if symbol < 110 then (if symbol < 109 then Code(6, 0x28) else Code(6, 0x29)) else (if symbol < 111 then Code(6, 0x2a) else Code(5, 0x7)))
            else
              if symbol < 0x78 then
                if symbol < 0x74 then
                  (if symbol < 114 then (if symbol < 113 then Code(6, 0x2b) else Code(7, 0x76)) else (if symbol < 115 then Code(6, 0x2c) else Code(5, 0x8)))
                else
                  (if symbol < 118 then (if symbol < 117 then Code(5, 0x9) else Code(6, 0x2d)) else (if symbol < 119 then Code(7, 0x77) else Code(7, 0x78)))
              else
                if symbol < 0x7c then
                  (if symbol < 122 then (if symbol < 121 then Code(7, 0x79) else Code(7, 0x7a)) else (if symbol < 123 then Code(7, 0x7b) else Code(15, 0x7ffe)))
                else
                  (if symbol < 126 then (if symbol < 125 then Code(11, 0x7fc) else Code(14, 0x3ffd)) else (if symbol < 127 then Code(13, 0x1ffd) else Code(28, 0xffffffc)))
      else
        if symbol < 0xc0 then
          if symbol < 0xa0 then
            if symbol < 0x90 then
              if symbol < 0x88 then
                if symbol < 0x84 then
                  (if symbol < 130 then (if symbol < 129 then Code(20, 0xfffe6) else Code(22, 0x3fffd2)) else (if symbol < 131 then Code(20, 0xfffe7) else Code(20, 0xfffe8)))
                else
                  (if symbol < 134 then (if symbol < 133 then Code(22, 0x3fffd3) else Code(22, 0x3fffd4)) else (if symbol < 135 then Code(22, 0x3fffd5) else Code(23, 0x7fffd9)))
              else
                if symbol < 0x8c then
                  (if symbol < 138 then (if symbol < 137 then Code(22, 0x3fffd6) else Code(23, 0x7fffda)) else (if symbol < 139 then Code(23, 0x7fffdb) else Code(23, 0x7fffdc)))
                else
                  (if symbol < 142 then (if symbol < 141 then Code(23, 0x7fffdd) else Code(23, 0x7fffde)) else (if symbol < 143 then Code(24, 0xffffeb) else Code(23, 0x7fffdf)))
            else
              if symbol < 0x98 then
                if symbol < 0x94 then
                  (if symbol < 146 then (if symbol < 145 then Code(24, 0xffffec) else Code(24, 0xffffed)) else (if symbol < 147 then Code(22, 0x3fffd7) else Code(23, 0x7fffe0)))
                else
                  (if symbol < 150 then (if symbol < 149 then Code(24, 0xffffee) else Code(23, 0x7fffe1)) else (if symbol < 151 then Code(23, 0x7fffe2) else Code(23, 0x7fffe3)))
              else
                if symbol < 0x9c then
                  (if symbol < 154 then (if symbol < 153 then Code(23, 0x7fffe4) else Code(21, 0x1fffdc)) else (if symbol < 155 then Code(22, 0x3fffd8) else Code(23, 0x7fffe5)))
                else
                  (if symbol < 158 then (if symbol < 157 then Code(22, 0x3fffd9) else Code(23, 0x7fffe6)) else (if symbol < 159 then Code(23, 0x7fffe7) else Code(24, 0xffffef)))
          else
            if symbol < 0xb0 then
              if symbol < 0xa8 then
                if symbol < 0xa4 then
                  (if symbol < 162 then (if symbol < 161 then Code(22, 0x3fffda) else Code(21, 0x1fffdd)) else (if symbol < 163 then Code(20, 0xfffe9) else Code(22, 0x3fffdb)))
                else
                  (if symbol < 166 then (if symbol < 165 then Code(22, 0x3fffdc) else Code(23, 0x7fffe8)) else (if symbol < 167 then Code(23, 0x7fffe9) else Code(21, 0x1fffde)))
              else
                if symbol < 0xac then
                  (if symbol < 170 then (if symbol < 169 then Code(23, 0x7fffea) else Code(22, 0x3fffdd)) else (if symbol < 171 then Code(22, 0x3fffde) else Code(24, 0xfffff0)))
                else
                  (if symbol < 174 then (if symbol < 173 then Code(21, 0x1fffdf) else Code(22, 0x3fffdf)) else (if symbol < 175 then Code(23, 0x7fffeb) else Code(23, 0x7fffec)))
            else
              if symbol < 0xb8 then
                if symbol < 0xb4 then
                  (if symbol < 178 then (if symbol < 177 then Code(21, 0x1fffe0) else Code(21, 0x1fffe1)) else (if symbol < 179 then Code(22, 0x3fffe0) else Code(21, 0x1fffe2)))
                else
                  (if symbol < 182 then (if symbol < 181 then Code(23, 0x7fffed) else Code(22, 0x3fffe1)) else (if symbol < 183 then Code(23, 0x7fffee) else Code(23, 0x7fffef)))
              else
                if symbol < 0xbc then
                  (if symbol < 186 then (if symbol < 185 then Code(20, 0xfffea) else Code(22, 0x3fffe2)) else (if symbol < 187 then Code(22, 0x3fffe3) else Code(22, 0x3fffe4)))
                else
                  (if symbol < 190 then (if symbol < 189 then Code(23, 0x7ffff0) else Code(22, 0x3fffe5)) else (if symbol < 191 then Code(22, 0x3fffe6) else Code(23, 0x7ffff1)))
        else
          if symbol < 0xe0 then
            if symbol < 0xd0 then
              if symbol < 0xc8 then
                if symbol < 0xc4 then
                  (if symbol < 194 then (if symbol < 193 then Code(26, 0x3ffffe0) else Code(26, 0x3ffffe1)) else (if symbol < 195 then Code(20, 0xfffeb) else Code(19, 0x7fff1)))
                else
                  (if symbol < 198 then (if symbol < 197 then Code(22, 0x3fffe7) else Code(23, 0x7ffff2)) else (if symbol < 199 then Code(22, 0x3fffe8) else Code(25, 0x1ffffec)))
              else
                if symbol < 0xcc then
                  (if symbol < 202 then (if symbol < 201 then Code(26, 0x3ffffe2) else Code(26, 0x3ffffe3)) else (if symbol < 203 then Code(26, 0x3ffffe4) else Code(27, 0x7ffffde)))
                else
                  (if symbol < 206 then (if symbol < 205 then Code(27, 0x7ffffdf) else Code(26, 0x3ffffe5)) else (if symbol < 207 then Code(24, 0xfffff1) else Code(25, 0x1ffffed)))
            else
              if symbol < 0xd8 then
                if symbol < 0xd4 then
                  (if symbol < 210 then (if symbol < 209 then Code(19, 0x7fff2) else Code(21, 0x1fffe3)) else (if symbol < 211 then Code(26, 0x3ffffe6) else Code(27, 0x7ffffe0)))
                else
                  (if symbol < 214 then (if symbol < 213 then Code(27, 0x7ffffe1) else Code(26, 0x3ffffe7)) else (if symbol < 215 then Code(27, 0x7ffffe2) else Code(24, 0xfffff2)))
              else
                if symbol < 0xdc then
                  (if symbol < 218 then (if symbol < 217 then Code(21, 0x1fffe4) else Code(21, 0x1fffe5)) else (if symbol < 219 then Code(26, 0x3ffffe8) else Code(26, 0x3ffffe9)))
                else
                  (if symbol < 222 then (if symbol < 221 then Code(28, 0xffffffd) else Code(27, 0x7ffffe3)) else (if symbol < 223 then Code(27, 0x7ffffe4) else Code(27, 0x7ffffe5)))
          else
            if symbol < 0xf0 then
              if symbol < 0xe8 then
                if symbol < 0xe4 then
                  (if symbol < 226 then (if symbol < 225 then Code(20, 0xfffec) else Code(24, 0xfffff3)) else (if symbol < 227 then Code(20, 0xfffed) else Code(21, 0x1fffe6)))
                else
                  (if symbol < 230 then (if symbol < 229 then Code(22, 0x3fffe9) else Code(21, 0x1fffe7)) else (if symbol < 231 then Code(21, 0x1fffe8) else Code(23, 0x7ffff3)))
              else
                if symbol < 0xec then
                  (if symbol < 234 then (if symbol < 233 then Code(22, 0x3fffea) else Code(22, 0x3fffeb)) else (if symbol < 235 then Code(25, 0x1ffffee) else Code(25, 0x1ffffef)))
                else
                  (if symbol < 238 then (if symbol < 237 then Code(24, 0xfffff4) else Code(24, 0xfffff5)) else (if symbol < 239 then Code(26, 0x3ffffea) else Code(23, 0x7ffff4)))
            else
              if symbol < 0xf8 then
                if symbol < 0xf4 then
                  (if symbol < 242 then (if symbol < 241 then Code(26, 0x3ffffeb) else Code(27, 0x7ffffe6)) else (if symbol < 243 then Code(26, 0x3ffffec) else Code(26, 0x3ffffed)))
                else
                  (if symbol < 246 then (if symbol < 245 then Code(27, 0x7ffffe7) else Code(27, 0x7ffffe8)) else (if symbol < 247 then Code(27, 0x7ffffe9) else Code(27, 0x7ffffea)))
              else
                if symbol < 0xfc then
                  (if symbol < 250 then (if symbol < 249 then Code(27, 0x7ffffeb) else Code(28, 0xffffffe)) else (if symbol < 251 then Code(27, 0x7ffffec) else Code(27, 0x7ffffed)))
                else
                  (if symbol < 254 then (if symbol < 253 then Code(27, 0x7ffffee) else Code(27, 0x7ffffef)) else (if symbol < 255 then Code(27, 0x7fffff0) else Code(26, 0x3ffffee)))
    else
      Code(30, 0x3fffffff)
  }

  /** `HUFFMAN_DECODE[state]`. */
  function DecodeRow(state: u8): Row {
    if state < 0x80 then
      if state < 0x40 then
        if state < 0x20 then
          if state < 0x10 then Rows_0(state) else Rows_1(state)
        else
          if state < 0x30 then Rows_2(state) else Rows_3(state)
      else
        if state < 0x60 then
          if state < 0x50 then Rows_4(state) else Rows_5(state)
        else
          if state < 0x70 then Rows_6(state) else Rows_7(state)
    else
      if state < 0xc0 then
        if state < 0xa0 then
          if state < 0x90 then Rows_8(state) else Rows_9(state)
        else
          if state < 0xb0 then Rows_a(state) else Rows_b(state)
      else
        if state < 0xe0 then
          if state < 0xd0 then Rows_c(state) else Rows_d(state)
        else
          if state < 0xf0 then Rows_e(state) else Rows_f(state)
  }

  function Rows_0(state: u8): Row {
    if state < 0x08 then
      if state < 0x04 then
        (if state < 2 then (if state < 1 then ROW_00 else ROW_01) else (if state < 3 then ROW_02 else ROW_03))
      else
        (if state < 6 then (if state < 5 then ROW_04 else ROW_05) else (if state < 7 then ROW_06 else ROW_07))
    else
      if state < 0x0c then
        (if state < 10 then (if state < 9 then ROW_08 else ROW_09) else (if state < 11 then ROW_0a else ROW_0b))
      else
        (if state < 14 then (if state < 13 then ROW_0c else ROW_0d) else (if state < 15 then ROW_0e else ROW_0f))
  }

  function Rows_1(state: u8): Row {
    if state < 0x18 then
      if state < 0x14 then
        (if state < 18 then (if state < 17 then ROW_10 else ROW_11) else (if state < 19 then ROW_12 else ROW_13))
      else
        (if state < 22 then (if state < 21 then ROW_14 else ROW_15) else (if state < 23 then ROW_16 else ROW_17))
    else
      if state < 0x1c then
        (if state < 26 then (if state < 25 then ROW_18 else ROW_19) else (if state < 27 then ROW_1a else ROW_1b))
      else
        (if state < 30 then (if state < 29 then ROW_1c else ROW_1d) else (if state < 31 then ROW_1e else ROW_1f))
  }

  function Rows_2(state: u8): Row {
    if state < 0x28 then
      if state < 0x24 then
        (if state < 34 then (if state < 33 then ROW_20 else ROW_21) else (if state < 35 then ROW_22 else ROW_23))
      else
        (if state < 38 then (if state < 37 then ROW_24 else ROW_25) else (if state < 39 then ROW_26 else ROW_27))
    else
      if state < 0x2c then
        (if state < 42 then (if state < 41 then ROW_28 else ROW_29) else (if state < 43 then ROW_2a else ROW_2b))
      else
        (if state < 46 then (if state < 45 then ROW_2c else ROW_2d) else (if state < 47 then ROW_2e else ROW_2f))
  }

  function Rows_3(state: u8): Row {
    if state < 0x38 then
      if state < 0x34 then
        (if state < 50 then (if state < 49 then ROW_30 else ROW_31) else (if state < 51 then ROW_32 else ROW_33))
      else
        (if state < 54 then (if state < 53 then ROW_34 else ROW_35) else (if state < 55 then ROW_36 else ROW_37))
    else
      if state < 0x3c then
        (if state < 58 then (if state < 57 then ROW_38 else ROW_39) else (if state < 59 then ROW_3a else ROW_3b))
      else
        (if state < 62 then (if state < 61 then ROW_3c else ROW_3d) else (if state < 63 then ROW_3e else ROW_3f))
  }

  function Rows_4(state: u8): Row {
    if state < 0x48 then
      if state < 0x44 then
        (if state < 66 then (if state < 65 then ROW_40 else ROW_41) else (if state < 67 then ROW_42 else ROW_43))
      else
        (if state < 70 then (if state < 69 then ROW_44 else ROW_45) else (if state < 71 then ROW_46 else ROW_47))
    else
      if state < 0x4c then
        (if state < 74 then (if state < 73 then ROW_48 else ROW_49) else (if state < 75 then ROW_4a else ROW_4b))
      else
        (if state < 78 then (if state < 77 then ROW_4c else ROW_4d) else (if state < 79 then ROW_4e else ROW_4f))
  }

  function Rows_5(state: u8): Row {
    if state < 0x58 then
      if state < 0x54 then
        (if state < 82 then (if state < 81 then ROW_50 else ROW_51) else (if state < 83 then ROW_52 else ROW_53))
      else
        (if state < 86 then (if state < 85 then ROW_54 else ROW_55) else (if state < 87 then ROW_56 else ROW_57))
    else
      if state < 0x5c then
        (if state < 90 then (if state < 89 then ROW_58 else ROW_59) else (if state < 91 then ROW_5a else ROW_5b))
      else
        (if state < 94 then (if state < 93 then ROW_5c else ROW_5d) else (if state < 95 then ROW_5e else ROW_5f))
  }

  function Rows_6(state: u8): Row {
    if state < 0x68 then
      if state < 0x64 then
        (if state < 98 then (if state < 97 then ROW_60 else ROW_61) else (if state < 99 then ROW_62 else ROW_63))
      else
        (if state < 102 then (if state < 101 then ROW_64 else ROW_65) else (if state < 103 then ROW_66 else ROW_67))
    else
      if state < 0x6c then
        (if state < 106 then (if state < 105 then ROW_68 else ROW_69) else (if state < 107 then ROW_6a else ROW_6b))
      else
        (if state < 110 then (if state < 109 then ROW_6c else ROW_6d) else (if state < 111 then ROW_6e else ROW_6f))
  }

  function Rows_7(state: u8): Row {
    if state < 0x78 then
      if state < 0x74 then
        (if state < 114 then (if state < 113 then ROW_70 else ROW_71) else (if state < 115 then ROW_72 else ROW_73))
      else
        (if state < 118 then (if state < 117 then ROW_74 else ROW_75) else (if state < 119 then ROW_76 else ROW_77))
    else
      if state < 0x7c then
        (if state < 122 then (if state < 121 then ROW_78 else ROW_79) else (if state < 123 then ROW_7a else ROW_7b))
      else
        (if state < 126 then (if state < 125 then ROW_7c else ROW_7d) else (if state < 127 then ROW_7e else ROW_7f))
  }

  function Rows_8(state: u8): Row {
    if state < 0x88 then
      if state < 0x84 then
        (if state < 130 then (if state < 129 then ROW_80 else ROW_81) else (if state < 131 then ROW_82 else ROW_83))
      else
        (if state < 134 then (if state < 133 then ROW_84 else ROW_85) else (if state < 135 then ROW_86 else ROW_87))
    else
      if state < 0x8c then
        (if state < 138 then (if state < 137 then ROW_88 else ROW_89) else (if state < 139 then ROW_8a else ROW_8b))
      else
        (if state < 142 then (if state < 141 then ROW_8c else ROW_8d) else (if state < 143 then ROW_8e else ROW_8f))
  }

  function Rows_9(state: u8): Row {
    if state < 0x98 then
      if state < 0x94 then
        (if state < 146 then (if state < 145 then ROW_90 else ROW_91) else (if state < 147 then ROW_92 else ROW_93))
      else
        (if state < 150 then (if state < 149 then ROW_94 else ROW_95) else (if state < 151 then ROW_96 else ROW_97))
    else
      if state < 0x9c then
        (if state < 154 then (if state < 153 then ROW_98 else ROW_99) else (if state < 155 then ROW_9a else ROW_9b))
      else
        (if state < 158 then (if state < 157 then ROW_9c else ROW_9d) else (if state < 159 then ROW_9e else ROW_9f))
  }

  function Rows_a(state: u8): Row {
    if state < 0xa8 then
      if state < 0xa4 then
        (if state < 162 then (if state < 161 then ROW_a0 else ROW_a1) else (if state < 163 then ROW_a2 else ROW_a3))
      else
        (if state < 166 then (if state < 165 then ROW_a4 else ROW_a5) else (if state < 167 then ROW_a6 else ROW_a7))
    else
      if state < 0xac then
        (if state < 170 then (if state < 169 then ROW_a8 else ROW_a9) else (if state < 171 then ROW_aa else ROW_ab))
      else
        (if state < 174 then (if state < 173 then ROW_ac else ROW_ad) else (if state < 175 then ROW_ae else ROW_af))
  }

  function Rows_b(state: u8): Row {
    if state < 0xb8 then
      if state < 0xb4 then
        (if state < 178 then (if state < 177 then ROW_b0 else ROW_b1) else (if state < 179 then ROW_b2 else ROW_b3))
      else
        (if state < 182 then (if state < 181 then ROW_b4 else ROW_b5) else (if state < 183 then ROW_b6 else ROW_b7))
    else
      if state < 0xbc then
        (if state < 186 then (if state < 185 then ROW_b8 else ROW_b9) else (if state < 187 then ROW_ba else ROW_bb))
      else
        (if state < 190 then (if state < 189 then ROW_bc else ROW_bd) else (if state < 191 then ROW_be else ROW_bf))
  }

  function Rows_c(state: u8): Row {
    if state < 0xc8 then
      if state < 0xc4 then
        (if state < 194 then (if state < 193 then ROW_c0 else ROW_c1) else (if state < 195 then ROW_c2 else ROW_c3))
      else
        (if state < 198 then (if state < 197 then ROW_c4 else ROW_c5) else (if state < 199 then ROW_c6 else ROW_c7))
    else
      if state < 0xcc then
        (if state < 202 then (if state < 201 then ROW_c8 else ROW_c9) else (if state < 203 then ROW_ca else ROW_cb))
      else
        (if state < 206 then (if state < 205 then ROW_cc else ROW_cd) else (if state < 207 then ROW_ce else ROW_cf))
  }

  function Rows_d(state: u8): Row {
    if state < 0xd8 then
      if state < 0xd4 then
        (if state < 210 then (if state < 209 then ROW_d0 else ROW_d1) else (if state < 211 then ROW_d2 else ROW_d3))
      else
        (if state < 214 then (if state < 213 then ROW_d4 else ROW_d5) else (if state < 215 then ROW_d6 else ROW_d7))
    else
      if state < 0xdc then
        (if state < 218 then (if state < 217 then ROW_d8 else ROW_d9) else (if state < 219 then ROW_da else ROW_db))
      else
        (if state < 222 then (if state < 221 then ROW_dc else ROW_dd) else (if state < 223 then ROW_de else ROW_df))
  }

  function Rows_e(state: u8): Row {
    if state < 0xe8 then
      if state < 0xe4 then
        (if state < 226 then (if state < 225 then ROW_e0 else ROW_e1) else (if state < 227 then ROW_e2 else ROW_e3))
      else
        (if state < 230 then (if state < 229 then ROW_e4 else ROW_e5) else (if state < 231 then ROW_e6 else ROW_e7))
    else
      if state < 0xec then
        (if state < 234 then (if state < 233 then ROW_e8 else ROW_e9) else (if state < 235 then ROW_ea else ROW_eb))
      else
        (if state < 238 then (if state < 237 then ROW_ec else ROW_ed) else (if state < 239 then ROW_ee else ROW_ef))
  }

  function Rows_f(state: u8): Row {
    if state < 0xf8 then
      if state < 0xf4 then
        (if state < 242 then (if state < 241 then ROW_f0 else ROW_f1) else (if state < 243 then ROW_f2 else ROW_f3))
      else
        (if state < 246 then (if state < 245 then ROW_f4 else ROW_f5) else (if state < 247 then ROW_f6 else ROW_f7))
    else
      if state < 0xfc then
        (if state < 250 then (if state < 249 then ROW_f8 else ROW_f9) else (if state < 251 then ROW_fa else ROW_fb))
      else
        (if state < 254 then (if state < 253 then ROW_fc else ROW_fd) else (if state < 255 then ROW_fe else ROW_ff))
  }

  const ROW_00 := R(
    Q(E(0x04, 0x00, 0), E(0x05, 0x00, 0), E(0x07, 0x00, 0), E(0x08, 0x00, 0)),
    Q(E(0x0b, 0x00, 0), E(0x0c, 0x00, 0), E(0x10, 0x00, 0), E(0x13, 0x00, 0)),
    Q(E(0x19, 0x00, 0), E(0x1c, 0x00, 0), E(0x20, 0x00, 0), E(0x23, 0x00, 0)),
    Q(E(0x2a, 0x00, 0), E(0x31, 0x00, 0), E(0x39, 0x00, 0), E(0x40, 0x00, 1)))
  const ROW_01 := R(
    Q(E(0x00, 0x30, 2), E(0x00, 0x31, 2), E(0x00, 0x32, 2), E(0x00, 0x61, 2)),
    Q(E(0x00, 0x63, 2), E(0x00, 0x65, 2), E(0x00, 0x69, 2), E(0x00, 0x6f, 2)),
    Q(E(0x00, 0x73, 2), E(0x00, 0x74, 2), E(0x0d, 0x00, 0), E(0x0e, 0x00, 0)),
    Q(E(0x11, 0x00, 0), E(0x12, 0x00, 0), E(0x14, 0x00, 0), E(0x15, 0x00, 0)))
  const ROW_02 := R(
    Q(E(0x01, 0x30, 2), E(0x16, 0x30, 3), E(0x01, 0x31, 2), E(0x16, 0x31, 3)),
    Q(E(0x01, 0x32, 2), E(0x16, 0x32, 3), E(0x01, 0x61, 2), E(0x16, 0x61, 3)),
    Q(E(0x01, 0x63, 2), E(0x16, 0x63, 3), E(0x01, 0x65, 2), E(0x16, 0x65, 3)),
    Q(E(0x01, 0x69, 2), E(0x16, 0x69, 3), E(0x01, 0x6f, 2), E(0x16, 0x6f, 3)))
  const ROW_03 := R(
    Q(E(0x02, 0x30, 2), E(0x09, 0x30, 2), E(0x17, 0x30, 2), E(0x28, 0x30, 3)),
    Q(E(0x02, 0x31, 2), E(0x09, 0x31, 2), E(0x17, 0x31, 2), E(0x28, 0x31, 3)),
    Q(E(0x02, 0x32, 2), E(0x09, 0x32, 2), E(0x17, 0x32, 2), E(0x28, 0x32, 3)),
    Q(E(0x02, 0x61, 2), E(0x09, 0x61, 2), E(0x17, 0x61, 2), E(0x28, 0x61, 3)))
  const ROW_04 := R(
    Q(E(0x03, 0x30, 2), E(0x06, 0x30, 2), E(0x0a, 0x30, 2), E(0x0f, 0x30, 2)),
    Q(E(0x18, 0x30, 2), E(0x1f, 0x30, 2), E(0x29, 0x30, 2), E(0x38, 0x30, 3)),
    Q(E(0x03, 0x31, 2), E(0x06, 0x31, 2), E(0x0a, 0x31, 2), E(0x0f, 0x31, 2)),
    Q(E(0x18, 0x31, 2), E(0x1f, 0x31, 2), E(0x29, 0x31, 2), E(0x38, 0x31, 3)))
  const ROW_05 := R(
    Q(E(0x03, 0x32, 2), E(0x06, 0x32, 2), E(0x0a, 0x32, 2), E(0x0f, 0x32, 2)),
    Q(E(0x18, 0x32, 2), E(0x1f, 0x32, 2), E(0x29, 0x32, 2), E(0x38, 0x32, 3)),
    Q(E(0x03, 0x61, 2), E(0x06, 0x61, 2), E(0x0a, 0x61, 2), E(0x0f, 0x61, 2)),
    Q(E(0x18, 0x61, 2), E(0x1f, 0x61, 2), E(0x29, 0x61, 2), E(0x38, 0x61, 3)))
  const ROW_06 := R(
    Q(E(0x02, 0x63, 2), E(0x09, 0x63, 2), E(0x17, 0x63, 2), E(0x28, 0x63, 3)),
    Q(E(0x02, 0x65, 2), E(0x09, 0x65, 2), E(0x17, 0x65, 2), E(0x28, 0x65, 3)),
    Q(E(0x02, 0x69, 2), E(0x09, 0x69, 2), E(0x17, 0x69, 2), E(0x28, 0x69, 3)),
    Q(E(0x02, 0x6f, 2), E(0x09, 0x6f, 2), E(0x17, 0x6f, 2), E(0x28, 0x6f, 3)))
  const ROW_07 := R(
    Q(E(0x03, 0x63, 2), E(0x06, 0x63, 2), E(0x0a, 0x63, 2), E(0x0f, 0x63, 2)),
    Q(E(0x18, 0x63, 2), E(0x1f, 0x63, 2), E(0x29, 0x63, 2), E(0x38, 0x63, 3)),
    Q(E(0x03, 0x65, 2), E(0x06, 0x65, 2), E(0x0a, 0x65, 2), E(0x0f, 0x65, 2)),
    Q(E(0x18, 0x65, 2), E(0x1f, 0x65, 2), E(0x29, 0x65, 2), E(0x38, 0x65, 3)))
  const ROW_08 := R(
    Q(E(0x03, 0x69, 2), E(0x06, 0x69, 2), E(0x0a, 0x69, 2), E(0x0f, 0x69, 2)),
    Q(E(0x18, 0x69, 2), E(0x1f, 0x69, 2), E(0x29, 0x69, 2), E(0x38, 0x69, 3)),
    Q(E(0x03, 0x6f, 2), E(0x06, 0x6f, 2), E(0x0a, 0x6f, 2), E(0x0f, 0x6f, 2)),
    Q(E(0x18, 0x6f, 2), E(0x1f, 0x6f, 2), E(0x29, 0x6f, 2), E(0x38, 0x6f, 3)))
  const ROW_09 := R(
    Q(E(0x01, 0x73, 2), E(0x16, 0x73, 3), E(0x01, 0x74, 2), E(0x16, 0x74, 3)),
    Q(E(0x00, 0x20, 2), E(0x00, 0x25, 2), E(0x00, 0x2d, 2), E(0x00, 0x2e, 2)),
    Q(E(0x00, 0x2f, 2), E(0x00, 0x33, 2), E(0x00, 0x34, 2), E(0x00, 0x35, 2)),
    Q(E(0x00, 0x36, 2), E(0x00, 0x37, 2), E(0x00, 0x38, 2), E(0x00, 0x39, 2)))
  const ROW_0a := R(
    Q(E(0x02, 0x73, 2), E(0x09, 0x73, 2), E(0x17, 0x73, 2), E(0x28, 0x73, 3)),
    Q(E(0x02, 0x74, 2), E(0x09, 0x74, 2), E(0x17, 0x74, 2), E(0x28, 0x74, 3)),
    Q(E(0x01, 0x20, 2), E(0x16, 0x20, 3), E(0x01, 0x25, 2), E(0x16, 0x25, 3)),
    Q(E(0x01, 0x2d, 2), E(0x16, 0x2d, 3), E(0x01, 0x2e, 2), E(0x16, 0x2e, 3)))
  const ROW_0b := R(
    Q(E(0x03, 0x73, 2), E(0x06, 0x73, 2), E(0x0a, 0x73, 2), E(0x0f, 0x73, 2)),
    Q(E(0x18, 0x73, 2), E(0x1f, 0x73, 2), E(0x29, 0x73, 2), E(0x38, 0x73, 3)),
    Q(E(0x03, 0x74, 2), E(0x06, 0x74, 2), E(0x0a, 0x74, 2), E(0x0f, 0x74, 2)),
    Q(E(0x18, 0x74, 2), E(0x1f, 0x74, 2), E(0x29, 0x74, 2), E(0x38, 0x74, 3)))
  const ROW_0c := R(
    Q(E(0x02, 0x20, 2), E(0x09, 0x20, 2), E(0x17, 0x20, 2), E(0x28, 0x20, 3)),
    Q(E(0x02, 0x25, 2), E(0x09, 0x25, 2), E(0x17, 0x25, 2), E(0x28, 0x25, 3)),
    Q(E(0x02, 0x2d, 2), E(0x09, 0x2d, 2), E(0x17, 0x2d, 2), E(0x28, 0x2d, 3)),
    Q(E(0x02, 0x2e, 2), E(0x09, 0x2e, 2), E(0x17, 0x2e, 2), E(0x28, 0x2e, 3)))
  const ROW_0d := R(
    Q(E(0x03, 0x20, 2), E(0x06, 0x20, 2), E(0x0a, 0x20, 2), E(0x0f, 0x20, 2)),
    Q(E(0x18, 0x20, 2), E(0x1f, 0x20, 2), E(0x29, 0x20, 2), E(0x38, 0x20, 3)),
    Q(E(0x03, 0x25, 2), E(0x06, 0x25, 2), E(0x0a, 0x25, 2), E(0x0f, 0x25, 2)),
    Q(E(0x18, 0x25, 2), E(0x1f, 0x25, 2), E(0x29, 0x25, 2), E(0x38, 0x25, 3)))
  const ROW_0e := R(
    Q(E(0x03, 0x2d, 2), E(0x06, 0x2d, 2), E(0x0a, 0x2d, 2), E(0x0f, 0x2d, 2)),
    Q(E(0x18, 0x2d, 2), E(0x1f, 0x2d, 2), E(0x29, 0x2d, 2), E(0x38, 0x2d, 3)),
    Q(E(0x03, 0x2e, 2), E(0x06, 0x2e, 2), E(0x0a, 0x2e, 2), E(0x0f, 0x2e, 2)),
    Q(E(0x18, 0x2e, 2), E(0x1f, 0x2e, 2), E(0x29, 0x2e, 2), E(0x38, 0x2e, 3)))
  const ROW_0f := R(
    Q(E(0x01, 0x2f, 2), E(0x16, 0x2f, 3), E(0x01, 0x33, 2), E(0x16, 0x33, 3)),
    Q(E(0x01, 0x34, 2), E(0x16, 0x34, 3), E(0x01, 0x35, 2), E(0x16, 0x35, 3)),
    Q(E(0x01, 0x36, 2), E(0x16, 0x36, 3), E(0x01, 0x37, 2), E(0x16, 0x37, 3)),
    Q(E(0x01, 0x38, 2), E(0x16, 0x38, 3), E(0x01, 0x39, 2), E(0x16, 0x39, 3)))
  const ROW_10 := R(
    Q(E(0x02, 0x2f, 2), E(0x09, 0x2f, 2), E(0x17, 0x2f, 2), E(0x28, 0x2f, 3)),
    Q(E(0x02, 0x33, 2), E(0x09, 0x33, 2), E(0x17, 0x33, 2), E(0x28, 0x33, 3)),
    Q(E(0x02, 0x34, 2), E(0x09, 0x34, 2), E(0x17, 0x34, 2), E(0x28, 0x34, 3)),
    Q(E(0x02, 0x35, 2), E(0x09, 0x35, 2), E(0x17, 0x35, 2), E(0x28, 0x35, 3)))
  const ROW_11 := R(
    Q(E(0x03, 0x2f, 2), E(0x06, 0x2f, 2), E(0x0a, 0x2f, 2), E(0x0f, 0x2f, 2)),
    Q(E(0x18, 0x2f, 2), E(0x1f, 0x2f, 2), E(0x29, 0x2f, 2), E(0x38, 0x2f, 3)),
    Q(E(0x03, 0x33, 2), E(0x06, 0x33, 2), E(0x0a, 0x33, 2), E(0x0f, 0x33, 2)),
    Q(E(0x18, 0x33, 2), E(0x1f, 0x33, 2), E(0x29, 0x33, 2), E(0x38, 0x33, 3)))
  const ROW_12 := R(
    Q(E(0x03, 0x34, 2), E(0x06, 0x34, 2), E(0x0a, 0x34, 2), E(0x0f, 0x34, 2)),
    Q(E(0x18, 0x34, 2), E(0x1f, 0x34, 2), E(0x29, 0x34, 2), E(0x38, 0x34, 3)),
    Q(E(0x03, 0x35, 2), E(0x06, 0x35, 2), E(0x0a, 0x35, 2), E(0x0f, 0x35, 2)),
    Q(E(0x18, 0x35, 2), E(0x1f, 0x35, 2), E(0x29, 0x35, 2), E(0x38, 0x35, 3)))
  const ROW_13 := R(
    Q(E(0x02, 0x36, 2), E(0x09, 0x36, 2), E(0x17, 0x36, 2), E(0x28, 0x36, 3)),
    Q(E(0x02, 0x37, 2), E(0x09, 0x37, 2), E(0x17, 0x37, 2), E(0x28, 0x37, 3)),
    Q(E(0x02, 0x38, 2), E(0x09, 0x38, 2), E(0x17, 0x38, 2), E(0x28, 0x38, 3)),
    Q(E(0x02, 0x39, 2), E(0x09, 0x39, 2), E(0x17, 0x39, 2), E(0x28, 0x39, 3)))
  const ROW_14 := R(
    Q(E(0x03, 0x36, 2), E(0x06, 0x36, 2), E(0x0a, 0x36, 2), E(0x0f, 0x36, 2)),
    Q(E(0x18, 0x36, 2), E(0x1f, 0x36, 2), E(0x29, 0x36, 2), E(0x38, 0x36, 3)),
    Q(E(0x03, 0x37, 2), E(0x06, 0x37, 2), E(0x0a, 0x37, 2), E(0x0f, 0x37, 2)),
    Q(E(0x18, 0x37, 2), E(0x1f, 0x37, 2), E(0x29, 0x37, 2), E(0x38, 0x37, 3)))
  const ROW_15 := R(
    Q(E(0x03, 0x38, 2), E(0x06, 0x38, 2), E(0x0a, 0x38, 2), E(0x0f, 0x38, 2)),
    Q(E(0x18, 0x38, 2), E(0x1f, 0x38, 2), E(0x29, 0x38, 2), E(0x38, 0x38, 3)),
    Q(E(0x03, 0x39, 2), E(0x06, 0x39, 2), E(0x0a, 0x39, 2), E(0x0f, 0x39, 2)),
    Q(E(0x18, 0x39, 2), E(0x1f, 0x39, 2), E(0x29, 0x39, 2), E(0x38, 0x39, 3)))
  const ROW_16 := R(
    Q(E(0x1a, 0x00, 0), E(0x1b, 0x00, 0), E(0x1d, 0x00, 0), E(0x1e, 0x00, 0)),
    Q(E(0x21, 0x00, 0), E(0x22, 0x00, 0), E(0x24, 0x00, 0), E(0x25, 0x00, 0)),
    Q(E(0x2b, 0x00, 0), E(0x2e, 0x00, 0), E(0x32, 0x00, 0), E(0x35, 0x00, 0)),
    Q(E(0x3a, 0x00, 0), E(0x3d, 0x00, 0), E(0x41, 0x00, 0), E(0x44, 0x00, 1)))
  const ROW_17 := R(
    Q(E(0x00, 0x3d, 2), E(0x00, 0x41, 2), E(0x00, 0x5f, 2), E(0x00, 0x62, 2)),
    Q(E(0x00, 0x64, 2), E(0x00, 0x66, 2), E(0x00, 0x67, 2), E(0x00, 0x68, 2)),
    Q(E(0x00, 0x6c, 2), E(0x00, 0x6d, 2), E(0x00, 0x6e, 2), E(0x00, 0x70, 2)),
    Q(E(0x00, 0x72, 2), E(0x00, 0x75, 2), E(0x26, 0x00, 0), E(0x27, 0x00, 0)))
  const ROW_18 := R(
    Q(E(0x01, 0x3d, 2), E(0x16, 0x3d, 3), E(0x01, 0x41, 2), E(0x16, 0x41, 3)),
    Q(E(0x01, 0x5f, 2), E(0x16, 0x5f, 3), E(0x01, 0x62, 2), E(0x16, 0x62, 3)),
    Q(E(0x01, 0x64, 2), E(0x16, 0x64, 3), E(0x01, 0x66, 2), E(0x16, 0x66, 3)),
    Q(E(0x01, 0x67, 2), E(0x16, 0x67, 3), E(0x01, 0x68, 2), E(0x16, 0x68, 3)))
  const ROW_19 := R(
    Q(E(0x02, 0x3d, 2), E(0x09, 0x3d, 2), E(0x17, 0x3d, 2), E(0x28, 0x3d, 3)),
    Q(E(0x02, 0x41, 2), E(0x09, 0x41, 2), E(0x17, 0x41, 2), E(0x28, 0x41, 3)),
    Q(E(0x02, 0x5f, 2), E(0x09, 0x5f, 2), E(0x17, 0x5f, 2), E(0x28, 0x5f, 3)),
    Q(E(0x02, 0x62, 2), E(0x09, 0x62, 2), E(0x17, 0x62, 2), E(0x28, 0x62, 3)))
  const ROW_1a := R(
    Q(E(0x03, 0x3d, 2), E(0x06, 0x3d, 2), E(0x0a, 0x3d, 2), E(0x0f, 0x3d, 2)),
    Q(E(0x18, 0x3d, 2), E(0x1f, 0x3d, 2), E(0x29, 0x3d, 2), E(0x38, 0x3d, 3)),
    Q(E(0x03, 0x41, 2), E(0x06, 0x41, 2), E(0x0a, 0x41, 2), E(0x0f, 0x41, 2)),
    Q(E(0x18, 0x41, 2), E(0x1f, 0x41, 2), E(0x29, 0x41, 2), E(0x38, 0x41, 3)))
  const ROW_1b := R(
    Q(E(0x03, 0x5f, 2), E(0x06, 0x5f, 2), E(0x0a, 0x5f, 2), E(0x0f, 0x5f, 2)),
    Q(E(0x18, 0x5f, 2), E(0x1f, 0x5f, 2), E(0x29, 0x5f, 2), E(0x38, 0x5f, 3)),
    Q(E(0x03, 0x62, 2), E(0x06, 0x62, 2), E(0x0a, 0x62, 2), E(0x0f, 0x62, 2)),
    Q(E(0x18, 0x62, 2), E(0x1f, 0x62, 2), E(0x29, 0x62, 2), E(0x38, 0x62, 3)))
  const ROW_1c := R(
    Q(E(0x02, 0x64, 2), E(0x09, 0x64, 2), E(0x17, 0x64, 2), E(0x28, 0x64, 3)),
    Q(E(0x02, 0x66, 2), E(0x09, 0x66, 2), E(0x17, 0x66, 2), E(0x28, 0x66, 3)),
    Q(E(0x02, 0x67, 2), E(0x09, 0x67, 2), E(0x17, 0x67, 2), E(0x28, 0x67, 3)),
    Q(E(0x02, 0x68, 2), E(0x09, 0x68, 2), E(0x17, 0x68, 2), E(0x28, 0x68, 3)))
  const ROW_1d := R(
    Q(E(0x03, 0x64, 2), E(0x06, 0x64, 2), E(0x0a, 0x64, 2), E(0x0f, 0x64, 2)),
    Q(E(0x18, 0x64, 2), E(0x1f, 0x64, 2), E(0x29, 0x64, 2), E(0x38, 0x64, 3)),
    Q(E(0x03, 0x66, 2), E(0x06, 0x66, 2), E(0x0a, 0x66, 2), E(0x0f, 0x66, 2)),
    Q(E(0x18, 0x66, 2), E(0x1f, 0x66, 2), E(0x29, 0x66, 2), E(0x38, 0x66, 3)))
  const ROW_1e := R(
    Q(E(0x03, 0x67, 2), E(0x06, 0x67, 2), E(0x0a, 0x67, 2), E(0x0f, 0x67, 2)),
    Q(E(0x18, 0x67, 2), E(0x1f, 0x67, 2), E(0x29, 0x67, 2), E(0x38, 0x67, 3)),
    Q(E(0x03, 0x68, 2), E(0x06, 0x68, 2), E(0x0a, 0x68, 2), E(0x0f, 0x68, 2)),
    Q(E(0x18, 0x68, 2), E(0x1f, 0x68, 2), E(0x29, 0x68, 2), E(0x38, 0x68, 3)))
  const ROW_1f := R(
    Q(E(0x01, 0x6c, 2), E(0x16, 0x6c, 3), E(0x01, 0x6d, 2), E(0x16, 0x6d, 3)),
    Q(E(0x01, 0x6e, 2), E(0x16, 0x6e, 3), E(0x01, 0x70, 2), E(0x16, 0x70, 3)),
    Q(E(0x01, 0x72, 2), E(0x16, 0x72, 3), E(0x01, 0x75, 2), E(0x16, 0x75, 3)),
    Q(E(0x00, 0x3a, 2), E(0x00, 0x42, 2), E(0x00, 0x43, 2), E(0x00, 0x44, 2)))
  const ROW_20 := R(
    Q(E(0x02, 0x6c, 2), E(0x09, 0x6c, 2), E(0x17, 0x6c, 2), E(0x28, 0x6c, 3)),
    Q(E(0x02, 0x6d, 2), E(0x09, 0x6d, 2), E(0x17, 0x6d, 2), E(0x28, 0x6d, 3)),
    Q(E(0x02, 0x6e, 2), E(0x09, 0x6e, 2), E(0x17, 0x6e, 2), E(0x28, 0x6e, 3)),
    Q(E(0x02, 0x70, 2), E(0x09, 0x70, 2), E(0x17, 0x70, 2), E(0x28, 0x70, 3)))
  const ROW_21 := R(
    Q(E(0x03, 0x6c, 2), E(0x06, 0x6c, 2), E(0x0a, 0x6c, 2), E(0x0f, 0x6c, 2)),
    Q(E(0x18, 0x6c, 2), E(0x1f, 0x6c, 2), E(0x29, 0x6c, 2), E(0x38, 0x6c, 3)),
    Q(E(0x03, 0x6d, 2), E(0x06, 0x6d, 2), E(0x0a, 0x6d, 2), E(0x0f, 0x6d, 2)),
    Q(E(0x18, 0x6d, 2), E(0x1f, 0x6d, 2), E(0x29, 0x6d, 2), E(0x38, 0x6d, 3)))
  const ROW_22 := R(
    Q(E(0x03, 0x6e, 2), E(0x06, 0x6e, 2), E(0x0a, 0x6e, 2), E(0x0f, 0x6e, 2)),
    Q(E(0x18, 0x6e, 2), E(0x1f, 0x6e, 2), E(0x29, 0x6e, 2), E(0x38, 0x6e, 3)),
    Q(E(0x03, 0x70, 2), E(0x06, 0x70, 2), E(0x0a, 0x70, 2), E(0x0f, 0x70, 2)),
    Q(E(0x18, 0x70, 2), E(0x1f, 0x70, 2), E(0x29, 0x70, 2), E(0x38, 0x70, 3)))
  const ROW_23 := R(
    Q(E(0x02, 0x72, 2), E(0x09, 0x72, 2), E(0x17, 0x72, 2), E(0x28, 0x72, 3)),
    Q(E(0x02, 0x75, 2), E(0x09, 0x75, 2), E(0x17, 0x75, 2), E(0x28, 0x75, 3)),
    Q(E(0x01, 0x3a, 2), E(0x16, 0x3a, 3), E(0x01, 0x42, 2), E(0x16, 0x42, 3)),
    Q(E(0x01, 0x43, 2), E(0x16, 0x43, 3), E(0x01, 0x44, 2), E(0x16, 0x44, 3)))
  const ROW_24 := R(
    Q(E(0x03, 0x72, 2), E(0x06, 0x72, 2), E(0x0a, 0x72, 2), E(0x0f, 0x72, 2)),
    Q(E(0x18, 0x72, 2), E(0x1f, 0x72, 2), E(0x29, 0x72, 2), E(0x38, 0x72, 3)),
    Q(E(0x03, 0x75, 2), E(0x06, 0x75, 2), E(0x0a, 0x75, 2), E(0x0f, 0x75, 2)),
    Q(E(0x18, 0x75, 2), E(0x1f, 0x75, 2), E(0x29, 0x75, 2), E(0x38, 0x75, 3)))
  const ROW_25 := R(
    Q(E(0x02, 0x3a, 2), E(0x09, 0x3a, 2), E(0x17, 0x3a, 2), E(0x28, 0x3a, 3)),
    Q(E(0x02, 0x42, 2), E(0x09, 0x42, 2), E(0x17, 0x42, 2), E(0x28, 0x42, 3)),
    Q(E(0x02, 0x43, 2), E(0x09, 0x43, 2), E(0x17, 0x43, 2), E(0x28, 0x43, 3)),
    Q(E(0x02, 0x44, 2), E(0x09, 0x44, 2), E(0x17, 0x44, 2), E(0x28, 0x44, 3)))
  const ROW_26 := R(
    Q(E(0x03, 0x3a, 2), E(0x06, 0x3a, 2), E(0x0a, 0x3a, 2), E(0x0f, 0x3a, 2)),
    Q(E(0x18, 0x3a, 2), E(0x1f, 0x3a, 2), E(0x29, 0x3a, 2), E(0x38, 0x3a, 3)),
    Q(E(0x03, 0x42, 2), E(0x06, 0x42, 2), E(0x0a, 0x42, 2), E(0x0f, 0x42, 2)),
    Q(E(0x18, 0x42, 2), E(0x1f, 0x42, 2), E(0x29, 0x42, 2), E(0x38, 0x42, 3)))
  const ROW_27 := R(
    Q(E(0x03, 0x43, 2), E(0x06, 0x43, 2), E(0x0a, 0x43, 2), E(0x0f, 0x43, 2)),
    Q(E(0x18, 0x43, 2), E(0x1f, 0x43, 2), E(0x29, 0x43, 2), E(0x38, 0x43, 3)),
    Q(E(0x03, 0x44, 2), E(0x06, 0x44, 2), E(0x0a, 0x44, 2), E(0x0f, 0x44, 2)),
    Q(E(0x18, 0x44, 2), E(0x1f, 0x44, 2), E(0x29, 0x44, 2), E(0x38, 0x44, 3)))
  const ROW_28 := R(
    Q(E(0x2c, 0x00, 0), E(0x2d, 0x00, 0), E(0x2f, 0x00, 0), E(0x30, 0x00, 0)),
    Q(E(0x33, 0x00, 0), E(0x34, 0x00, 0), E(0x36, 0x00, 0), E(0x37, 0x00, 0)),
    Q(E(0x3b, 0x00, 0), E(0x3c, 0x00, 0), E(0x3e, 0x00, 0), E(0x3f, 0x00, 0)),
    Q(E(0x42, 0x00, 0), E(0x43, 0x00, 0), E(0x45, 0x00, 0), E(0x48, 0x00, 1)))
  const ROW_29 := R(
    Q(E(0x00, 0x45, 2), E(0x00, 0x46, 2), E(0x00, 0x47, 2), E(0x00, 0x48, 2)),
    Q(E(0x00, 0x49, 2), E(0x00, 0x4a, 2), E(0x00, 0x4b, 2), E(0x00, 0x4c, 2)),
    Q(E(0x00, 0x4d, 2), E(0x00, 0x4e, 2), E(0x00, 0x4f, 2), E(0x00, 0x50, 2)),
    Q(E(0x00, 0x51, 2), E(0x00, 0x52, 2), E(0x00, 0x53, 2), E(0x00, 0x54, 2)))
  const ROW_2a := R(
    Q(E(0x01, 0x45, 2), E(0x16, 0x45, 3), E(0x01, 0x46, 2), E(0x16, 0x46, 3)),
    Q(E(0x01, 0x47, 2), E(0x16, 0x47, 3), E(0x01, 0x48, 2), E(0x16, 0x48, 3)),
    Q(E(0x01, 0x49, 2), E(0x16, 0x49, 3), E(0x01, 0x4a, 2), E(0x16, 0x4a, 3)),
    Q(E(0x01, 0x4b, 2), E(0x16, 0x4b, 3), E(0x01, 0x4c, 2), E(0x16, 0x4c, 3)))
  const ROW_2b := R(
    Q(E(0x02, 0x45, 2), E(0x09, 0x45, 2), E(0x17, 0x45, 2), E(0x28, 0x45, 3)),
    Q(E(0x02, 0x46, 2), E(0x09, 0x46, 2), E(0x17, 0x46, 2), E(0x28, 0x46, 3)),
    Q(E(0x02, 0x47, 2), E(0x09, 0x47, 2), E(0x17, 0x47, 2), E(0x28, 0x47, 3)),
    Q(E(0x02, 0x48, 2), E(0x09, 0x48, 2), E(0x17, 0x48, 2), E(0x28, 0x48, 3)))
  const ROW_2c := R(
    Q(E(0x03, 0x45, 2), E(0x06, 0x45, 2), E(0x0a, 0x45, 2), E(0x0f, 0x45, 2)),
    Q(E(0x18, 0x45, 2), E(0x1f, 0x45, 2), E(0x29, 0x45, 2), E(0x38, 0x45, 3)),
    Q(E(0x03, 0x46, 2), E(0x06, 0x46, 2), E(0x0a, 0x46, 2), E(0x0f, 0x46, 2)),
    Q(E(0x18, 0x46, 2), E(0x1f, 0x46, 2), E(0x29, 0x46, 2), E(0x38, 0x46, 3)))
  const ROW_2d := R(
    Q(E(0x03, 0x47, 2), E(0x06, 0x47, 2), E(0x0a, 0x47, 2), E(0x0f, 0x47, 2)),
    Q(E(0x18, 0x47, 2), E(0x1f, 0x47, 2), E(0x29, 0x47, 2), E(0x38, 0x47, 3)),
    Q(E(0x03, 0x48, 2), E(0x06, 0x48, 2), E(0x0a, 0x48, 2), E(0x0f, 0x48, 2)),
    Q(E(0x18, 0x48, 2), E(0x1f, 0x48, 2), E(0x29, 0x48, 2), E(0x38, 0x48, 3)))
  const ROW_2e := R(
    Q(E(0x02, 0x49, 2), E(0x09, 0x49, 2), E(0x17, 0x49, 2), E(0x28, 0x49, 3)),
    Q(E(0x02, 0x4a, 2), E(0x09, 0x4a, 2), E(0x17, 0x4a, 2), E(0x28, 0x4a, 3)),
    Q(E(0x02, 0x4b, 2), E(0x09, 0x4b, 2), E(0x17, 0x4b, 2), E(0x28, 0x4b, 3)),
    Q(E(0x02, 0x4c, 2), E(0x09, 0x4c, 2), E(0x17, 0x4c, 2), E(0x28, 0x4c, 3)))
  const ROW_2f := R(
    Q(E(0x03, 0x49, 2), E(0x06, 0x49, 2), E(0x0a, 0x49, 2), E(0x0f, 0x49, 2)),
    Q(E(0x18, 0x49, 2), E(0x1f, 0x49, 2), E(0x29, 0x49, 2), E(0x38, 0x49, 3)),
    Q(E(0x03, 0x4a, 2), E(0x06, 0x4a, 2), E(0x0a, 0x4a, 2), E(0x0f, 0x4a, 2)),
    Q(E(0x18, 0x4a, 2), E(0x1f, 0x4a, 2), E(0x29, 0x4a, 2), E(0x38, 0x4a, 3)))
  const ROW_30 := R(
    Q(E(0x03, 0x4b, 2), E(0x06, 0x4b, 2), E(0x0a, 0x4b, 2), E(0x0f, 0x4b, 2)),
    Q(E(0x18, 0x4b, 2), E(0x1f, 0x4b, 2), E(0x29, 0x4b, 2), E(0x38, 0x4b, 3)),
    Q(E(0x03, 0x4c, 2), E(0x06, 0x4c, 2), E(0x0a, 0x4c, 2), E(0x0f, 0x4c, 2)),
    Q(E(0x18, 0x4c, 2), E(0x1f, 0x4c, 2), E(0x29, 0x4c, 2), E(0x38, 0x4c, 3)))
  const ROW_31 := R(
    Q(E(0x01, 0x4d, 2), E(0x16, 0x4d, 3), E(0x01, 0x4e, 2), E(0x16, 0x4e, 3)),
    Q(E(0x01, 0x4f, 2), E(0x16, 0x4f, 3), E(0x01, 0x50, 2), E(0x16, 0x50, 3)),
    Q(E(0x01, 0x51, 2), E(0x16, 0x51, 3), E(0x01, 0x52, 2), E(0x16, 0x52, 3)),
    Q(E(0x01, 0x53, 2), E(0x16, 0x53, 3), E(0x01, 0x54, 2), E(0x16, 0x54, 3)))
  const ROW_32 := R(
    Q(E(0x02, 0x4d, 2), E(0x09, 0x4d, 2), E(0x17, 0x4d, 2), E(0x28, 0x4d, 3)),
    Q(E(0x02, 0x4e, 2), E(0x09, 0x4e, 2), E(0x17, 0x4e, 2), E(0x28, 0x4e, 3)),
    Q(E(0x02, 0x4f, 2), E(0x09, 0x4f, 2), E(0x17, 0x4f, 2), E(0x28, 0x4f, 3)),
    Q(E(0x02, 0x50, 2), E(0x09, 0x50, 2), E(0x17, 0x50, 2), E(0x28, 0x50, 3)))
  const ROW_33 := R(
    Q(E(0x03, 0x4d, 2), E(0x06, 0x4d, 2), E(0x0a, 0x4d, 2), E(0x0f, 0x4d, 2)),
    Q(E(0x18, 0x4d, 2), E(0x1f, 0x4d, 2), E(0x29, 0x4d, 2), E(0x38, 0x4d, 3)),
    Q(E(0x03, 0x4e, 2), E(0x06, 0x4e, 2), E(0x0a, 0x4e, 2), E(0x0f, 0x4e, 2)),
    Q(E(0x18, 0x4e, 2), E(0x1f, 0x4e, 2), E(0x29, 0x4e, 2), E(0x38, 0x4e, 3)))
  const ROW_34 := R(
    Q(E(0x03, 0x4f, 2), E(0x06, 0x4f, 2), E(0x0a, 0x4f, 2), E(0x0f, 0x4f, 2)),
    Q(E(0x18, 0x4f, 2), E(0x1f, 0x4f, 2), E(0x29, 0x4f, 2), E(0x38, 0x4f, 3)),
    Q(E(0x03, 0x50, 2), E(0x06, 0x50, 2), E(0x0a, 0x50, 2), E(0x0f, 0x50, 2)),
    Q(E(0x18, 0x50, 2), E(0x1f, 0x50, 2), E(0x29, 0x50, 2), E(0x38, 0x50, 3)))
  const ROW_35 := R(
    Q(E(0x02, 0x51, 2), E(0x09, 0x51, 2), E(0x17, 0x51, 2), E(0x28, 0x51, 3)),
    Q(E(0x02, 0x52, 2), E(0x09, 0x52, 2), E(0x17, 0x52, 2), E(0x28, 0x52, 3)),
    Q(E(0x02, 0x53, 2), E(0x09, 0x53, 2), E(0x17, 0x53, 2), E(0x28, 0x53, 3)),
    Q(E(0x02, 0x54, 2), E(0x09, 0x54, 2), E(0x17, 0x54, 2), E(0x28, 0x54, 3)))
  const ROW_36 := R(
    Q(E(0x03, 0x51, 2), E(0x06, 0x51, 2), E(0x0a, 0x51, 2), E(0x0f, 0x51, 2)),
    Q(E(0x18, 0x51, 2), E(0x1f, 0x51, 2), E(0x29, 0x51, 2), E(0x38, 0x51, 3)),
    Q(E(0x03, 0x52, 2), E(0x06, 0x52, 2), E(0x0a, 0x52, 2), E(0x0f, 0x52, 2)),
    Q(E(0x18, 0x52, 2), E(0x1f, 0x52, 2), E(0x29, 0x52, 2), E(0x38, 0x52, 3)))
  const ROW_37 := R(
    Q(E(0x03, 0x53, 2), E(0x06, 0x53, 2), E(0x0a, 0x53, 2), E(0x0f, 0x53, 2)),
    Q(E(0x18, 0x53, 2), E(0x1f, 0x53, 2), E(0x29, 0x53, 2), E(0x38, 0x53, 3)),
    Q(E(0x03, 0x54, 2), E(0x06, 0x54, 2), E(0x0a, 0x54, 2), E(0x0f, 0x54, 2)),
    Q(E(0x18, 0x54, 2), E(0x1f, 0x54, 2), E(0x29, 0x54, 2), E(0x38, 0x54, 3)))
  const ROW_38 := R(
    Q(E(0x00, 0x55, 2), E(0x00, 0x56, 2), E(0x00, 0x57, 2), E(0x00, 0x59, 2)),
    Q(E(0x00, 0x6a, 2), E(0x00, 0x6b, 2), E(0x00, 0x71, 2), E(0x00, 0x76, 2)),
    Q(E(0x00, 0x77, 2), E(0x00, 0x78, 2), E(0x00, 0x79, 2), E(0x00, 0x7a, 2)),
    Q(E(0x46, 0x00, 0), E(0x47, 0x00, 0), E(0x49, 0x00, 0), E(0x4a, 0x00, 1)))
  const ROW_39 := R(
    Q(E(0x01, 0x55, 2), E(0x16, 0x55, 3), E(0x01, 0x56, 2), E(0x16, 0x56, 3)),
    Q(E(0x01, 0x57, 2), E(0x16, 0x57, 3), E(0x01, 0x59, 2), E(0x16, 0x59, 3)),
    Q(E(0x01, 0x6a, 2), E(0x16, 0x6a, 3), E(0x01, 0x6b, 2), E(0x16, 0x6b, 3)),
    Q(E(0x01, 0x71, 2), E(0x16, 0x71, 3), E(0x01, 0x76, 2), E(0x16, 0x76, 3)))
  const ROW_3a := R(
    Q(E(0x02, 0x55, 2), E(0x09, 0x55, 2), E(0x17, 0x55, 2), E(0x28, 0x55, 3)),
    Q(E(0x02, 0x56, 2), E(0x09, 0x56, 2), E(0x17, 0x56, 2), E(0x28, 0x56, 3)),
    Q(E(0x02, 0x57, 2), E(0x09, 0x57, 2), E(0x17, 0x57, 2), E(0x28, 0x57, 3)),
    Q(E(0x02, 0x59, 2), E(0x09, 0x59, 2), E(0x17, 0x59, 2), E(0x28, 0x59, 3)))
  const ROW_3b := R(
    Q(E(0x03, 0x55, 2), E(0x06, 0x55, 2), E(0x0a, 0x55, 2), E(0x0f, 0x55, 2)),
    Q(E(0x18, 0x55, 2), E(0x1f, 0x55, 2), E(0x29, 0x55, 2), E(0x38, 0x55, 3)),
    Q(E(0x03, 0x56, 2), E(0x06, 0x56, 2), E(0x0a, 0x56, 2), E(0x0f, 0x56, 2)),
    Q(E(0x18, 0x56, 2), E(0x1f, 0x56, 2), E(0x29, 0x56, 2), E(0x38, 0x56, 3)))
  const ROW_3c := R(
    Q(E(0x03, 0x57, 2), E(0x06, 0x57, 2), E(0x0a, 0x57, 2), E(0x0f, 0x57, 2)),
    Q(E(0x18, 0x57, 2), E(0x1f, 0x57, 2), E(0x29, 0x57, 2), E(0x38, 0x57, 3)),
    Q(E(0x03, 0x59, 2), E(0x06, 0x59, 2), E(0x0a, 0x59, 2), E(0x0f, 0x59, 2)),
    Q(E(0x18, 0x59, 2), E(0x1f, 0x59, 2), E(0x29, 0x59, 2), E(0x38, 0x59, 3)))
  const ROW_3d := R(
    Q(E(0x02, 0x6a, 2), E(0x09, 0x6a, 2), E(0x17, 0x6a, 2), E(0x28, 0x6a, 3)),
    Q(E(0x02, 0x6b, 2), E(0x09, 0x6b, 2), E(0x17, 0x6b, 2), E(0x28, 0x6b, 3)),
    Q(E(0x02, 0x71, 2), E(0x09, 0x71, 2), E(0x17, 0x71, 2), E(0x28, 0x71, 3)),
    Q(E(0x02, 0x76, 2), E(0x09, 0x76, 2), E(0x17, 0x76, 2), E(0x28, 0x76, 3)))
  const ROW_3e := R(
    Q(E(0x03, 0x6a, 2), E(0x06, 0x6a, 2), E(0x0a, 0x6a, 2), E(0x0f, 0x6a, 2)),
    Q(E(0x18, 0x6a, 2), E(0x1f, 0x6a, 2), E(0x29, 0x6a, 2), E(0x38, 0x6a, 3)),
    Q(E(0x03, 0x6b, 2), E(0x06, 0x6b, 2), E(0x0a, 0x6b, 2), E(0x0f, 0x6b, 2)),
    Q(E(0x18, 0x6b, 2), E(0x1f, 0x6b, 2), E(0x29, 0x6b, 2), E(0x38, 0x6b, 3)))
  const ROW_3f := R(
    Q(E(0x03, 0x71, 2), E(0x06, 0x71, 2), E(0x0a, 0x71, 2), E(0x0f, 0x71, 2)),
    Q(E(0x18, 0x71, 2), E(0x1f, 0x71, 2), E(0x29, 0x71, 2), E(0x38, 0x71, 3)),
    Q(E(0x03, 0x76, 2), E(0x06, 0x76, 2), E(0x0a, 0x76, 2), E(0x0f, 0x76, 2)),
    Q(E(0x18, 0x76, 2), E(0x1f, 0x76, 2), E(0x29, 0x76, 2), E(0x38, 0x76, 3)))
  const ROW_40 := R(
    Q(E(0x01, 0x77, 2), E(0x16, 0x77, 3), E(0x01, 0x78, 2), E(0x16, 0x78, 3)),
    Q(E(0x01, 0x79, 2), E(0x16, 0x79, 3), E(0x01, 0x7a, 2), E(0x16, 0x7a, 3)),
    Q(E(0x00, 0x26, 2), E(0x00, 0x2a, 2), E(0x00, 0x2c, 2), E(0x00, 0x3b, 2)),
    Q(E(0x00, 0x58, 2), E(0x00, 0x5a, 2), E(0x4b, 0x00, 0), E(0x4e, 0x00, 0)))
  const ROW_41 := R(
    Q(E(0x02, 0x77, 2), E(0x09, 0x77, 2), E(0x17, 0x77, 2), E(0x28, 0x77, 3)),
    Q(E(0x02, 0x78, 2), E(0x09, 0x78, 2), E(0x17, 0x78, 2), E(0x28, 0x78, 3)),
    Q(E(0x02, 0x79, 2), E(0x09, 0x79, 2), E(0x17, 0x79, 2), E(0x28, 0x79, 3)),
    Q(E(0x02, 0x7a, 2), E(0x09, 0x7a, 2), E(0x17, 0x7a, 2), E(0x28, 0x7a, 3)))
  const ROW_42 := R(
    Q(E(0x03, 0x77, 2), E(0x06, 0x77, 2), E(0x0a, 0x77, 2), E(0x0f, 0x77, 2)),
    Q(E(0x18, 0x77, 2), E(0x1f, 0x77, 2), E(0x29, 0x77, 2), E(0x38, 0x77, 3)),
    Q(E(0x03, 0x78, 2), E(0x06, 0x78, 2), E(0x0a, 0x78, 2), E(0x0f, 0x78, 2)),
    Q(E(0x18, 0x78, 2), E(0x1f, 0x78, 2), E(0x29, 0x78, 2), E(0x38, 0x78, 3)))
  const ROW_43 := R(
    Q(E(0x03, 0x79, 2), E(0x06, 0x79, 2), E(0x0a, 0x79, 2), E(0x0f, 0x79, 2)),
    Q(E(0x18, 0x79, 2), E(0x1f, 0x79, 2), E(0x29, 0x79, 2), E(0x38, 0x79, 3)),
    Q(E(0x03, 0x7a, 2), E(0x06, 0x7a, 2), E(0x0a, 0x7a, 2), E(0x0f, 0x7a, 2)),
    Q(E(0x18, 0x7a, 2), E(0x1f, 0x7a, 2), E(0x29, 0x7a, 2), E(0x38, 0x7a, 3)))
  const ROW_44 := R(
    Q(E(0x01, 0x26, 2), E(0x16, 0x26, 3), E(0x01, 0x2a, 2), E(0x16, 0x2a, 3)),
    Q(E(0x01, 0x2c, 2), E(0x16, 0x2c, 3), E(0x01, 0x3b, 2), E(0x16, 0x3b, 3)),
    Q(E(0x01, 0x58, 2), E(0x16, 0x58, 3), E(0x01, 0x5a, 2), E(0x16, 0x5a, 3)),
    Q(E(0x4c, 0x00, 0), E(0x4d, 0x00, 0), E(0x4f, 0x00, 0), E(0x51, 0x00, 0)))
  const ROW_45 := R(
    Q(E(0x02, 0x26, 2), E(0x09, 0x26, 2), E(0x17, 0x26, 2), E(0x28, 0x26, 3)),
    Q(E(0x02, 0x2a, 2), E(0x09, 0x2a, 2), E(0x17, 0x2a, 2), E(0x28, 0x2a, 3)),
    Q(E(0x02, 0x2c, 2), E(0x09, 0x2c, 2), E(0x17, 0x2c, 2), E(0x28, 0x2c, 3)),
    Q(E(0x02, 0x3b, 2), E(0x09, 0x3b, 2), E(0x17, 0x3b, 2), E(0x28, 0x3b, 3)))
  const ROW_46 := R(
    Q(E(0x03, 0x26, 2), E(0x06, 0x26, 2), E(0x0a, 0x26, 2), E(0x0f, 0x26, 2)),
    Q(E(0x18, 0x26, 2), E(0x1f, 0x26, 2), E(0x29, 0x26, 2), E(0x38, 0x26, 3)),
    Q(E(0x03, 0x2a, 2), E(0x06, 0x2a, 2), E(0x0a, 0x2a, 2), E(0x0f, 0x2a, 2)),
    Q(E(0x18, 0x2a, 2), E(0x1f, 0x2a, 2), E(0x29, 0x2a, 2), E(0x38, 0x2a, 3)))
  const ROW_47 := R(
    Q(E(0x03, 0x2c, 2), E(0x06, 0x2c, 2), E(0x0a, 0x2c, 2), E(0x0f, 0x2c, 2)),
    Q(E(0x18, 0x2c, 2), E(0x1f, 0x2c, 2), E(0x29, 0x2c, 2), E(0x38, 0x2c, 3)),
    Q(E(0x03, 0x3b, 2), E(0x06, 0x3b, 2), E(0x0a, 0x3b, 2), E(0x0f, 0x3b, 2)),
    Q(E(0x18, 0x3b, 2), E(0x1f, 0x3b, 2), E(0x29, 0x3b, 2), E(0x38, 0x3b, 3)))
  const ROW_48 := R(
    Q(E(0x02, 0x58, 2), E(0x09, 0x58, 2), E(0x17, 0x58, 2), E(0x28, 0x58, 3)),
    Q(E(0x02, 0x5a, 2), E(0x09, 0x5a, 2), E(0x17, 0x5a, 2), E(0x28, 0x5a, 3)),
    Q(E(0x00, 0x21, 2), E(0x00, 0x22, 2), E(0x00, 0x28, 2), E(0x00, 0x29, 2)),
    Q(E(0x00, 0x3f, 2), E(0x50, 0x00, 0), E(0x52, 0x00, 0), E(0x54, 0x00, 0)))
  const ROW_49 := R(
    Q(E(0x03, 0x58, 2), E(0x06, 0x58, 2), E(0x0a, 0x58, 2), E(0x0f, 0x58, 2)),
    Q(E(0x18, 0x58, 2), E(0x1f, 0x58, 2), E(0x29, 0x58, 2), E(0x38, 0x58, 3)),
    Q(E(0x03, 0x5a, 2), E(0x06, 0x5a, 2), E(0x0a, 0x5a, 2), E(0x0f, 0x5a, 2)),
    Q(E(0x18, 0x5a, 2), E(0x1f, 0x5a, 2), E(0x29, 0x5a, 2), E(0x38, 0x5a, 3)))
  const ROW_4a := R(
    Q(E(0x01, 0x21, 2), E(0x16, 0x21, 3), E(0x01, 0x22, 2), E(0x16, 0x22, 3)),
    Q(E(0x01, 0x28, 2), E(0x16, 0x28, 3), E(0x01, 0x29, 2), E(0x16, 0x29, 3)),
    Q(E(0x01, 0x3f, 2), E(0x16, 0x3f, 3), E(0x00, 0x27, 2), E(0x00, 0x2b, 2)),
    Q(E(0x00, 0x7c, 2), E(0x53, 0x00, 0), E(0x55, 0x00, 0), E(0x58, 0x00, 0)))
  const ROW_4b := R(
    Q(E(0x02, 0x21, 2), E(0x09, 0x21, 2), E(0x17, 0x21, 2), E(0x28, 0x21, 3)),
    Q(E(0x02, 0x22, 2), E(0x09, 0x22, 2), E(0x17, 0x22, 2), E(0x28, 0x22, 3)),
    Q(E(0x02, 0x28, 2), E(0x09, 0x28, 2), E(0x17, 0x28, 2), E(0x28, 0x28, 3)),
    Q(E(0x02, 0x29, 2), E(0x09, 0x29, 2), E(0x17, 0x29, 2), E(0x28, 0x29, 3)))
  const ROW_4c := R(
    Q(E(0x03, 0x21, 2), E(0x06, 0x21, 2), E(0x0a, 0x21, 2), E(0x0f, 0x21, 2)),
    Q(E(0x18, 0x21, 2), E(0x1f, 0x21, 2), E(0x29, 0x21, 2), E(0x38, 0x21, 3)),
    Q(E(0x03, 0x22, 2), E(0x06, 0x22, 2), E(0x0a, 0x22, 2), E(0x0f, 0x22, 2)),
    Q(E(0x18, 0x22, 2), E(0x1f, 0x22, 2), E(0x29, 0x22, 2), E(0x38, 0x22, 3)))
  const ROW_4d := R(
    Q(E(0x03, 0x28, 2), E(0x06, 0x28, 2), E(0x0a, 0x28, 2), E(0x0f, 0x28, 2)),
    Q(E(0x18, 0x28, 2), E(0x1f, 0x28, 2), E(0x29, 0x28, 2), E(0x38, 0x28, 3)),
    Q(E(0x03, 0x29, 2), E(0x06, 0x29, 2), E(0x0a, 0x29, 2), E(0x0f, 0x29, 2)),
    Q(E(0x18, 0x29, 2), E(0x1f, 0x29, 2), E(0x29, 0x29, 2), E(0x38, 0x29, 3)))
  const ROW_4e := R(
    Q(E(0x02, 0x3f, 2), E(0x09, 0x3f, 2), E(0x17, 0x3f, 2), E(0x28, 0x3f, 3)),
    Q(E(0x01, 0x27, 2), E(0x16, 0x27, 3), E(0x01, 0x2b, 2), E(0x16, 0x2b, 3)),
    Q(E(0x01, 0x7c, 2), E(0x16, 0x7c, 3), E(0x00, 0x23, 2), E(0x00, 0x3e, 2)),
    Q(E(0x56, 0x00, 0), E(0x57, 0x00, 0), E(0x59, 0x00, 0), E(0x5a, 0x00, 0)))
  const ROW_4f := R(
    Q(E(0x03, 0x3f, 2), E(0x06, 0x3f, 2), E(0x0a, 0x3f, 2), E(0x0f, 0x3f, 2)),
    Q(E(0x18, 0x3f, 2), E(0x1f, 0x3f, 2), E(0x29, 0x3f, 2), E(0x38, 0x3f, 3)),
    Q(E(0x02, 0x27, 2), E(0x09, 0x27, 2), E(0x17, 0x27, 2), E(0x28, 0x27, 3)),
    Q(E(0x02, 0x2b, 2), E(0x09, 0x2b, 2), E(0x17, 0x2b, 2), E(0x28, 0x2b, 3)))
  const ROW_50 := R(
    Q(E(0x03, 0x27, 2), E(0x06, 0x27, 2), E(0x0a, 0x27, 2), E(0x0f, 0x27, 2)),
    Q(E(0x18, 0x27, 2), E(0x1f, 0x27, 2), E(0x29, 0x27, 2), E(0x38, 0x27, 3)),
    Q(E(0x03, 0x2b, 2), E(0x06, 0x2b, 2), E(0x0a, 0x2b, 2), E(0x0f, 0x2b, 2)),
    Q(E(0x18, 0x2b, 2), E(0x1f, 0x2b, 2), E(0x29, 0x2b, 2), E(0x38, 0x2b, 3)))
  const ROW_51 := R(
    Q(E(0x02, 0x7c, 2), E(0x09, 0x7c, 2), E(0x17, 0x7c, 2), E(0x28, 0x7c, 3)),
    Q(E(0x01, 0x23, 2), E(0x16, 0x23, 3), E(0x01, 0x3e, 2), E(0x16, 0x3e, 3)),
    Q(E(0x00, 0x00, 2), E(0x00, 0x24, 2), E(0x00, 0x40, 2), E(0x00, 0x5b, 2)),
    Q(E(0x00, 0x5d, 2), E(0x00, 0x7e, 2), E(0x5b, 0x00, 0), E(0x5c, 0x00, 0)))
  const ROW_52 := R(
    Q(E(0x03, 0x7c, 2), E(0x06, 0x7c, 2), E(0x0a, 0x7c, 2), E(0x0f, 0x7c, 2)),
    Q(E(0x18, 0x7c, 2), E(0x1f, 0x7c, 2), E(0x29, 0x7c, 2), E(0x38, 0x7c, 3)),
    Q(E(0x02, 0x23, 2), E(0x09, 0x23, 2), E(0x17, 0x23, 2), E(0x28, 0x23, 3)),
    Q(E(0x02, 0x3e, 2), E(0x09, 0x3e, 2), E(0x17, 0x3e, 2), E(0x28, 0x3e, 3)))
  const ROW_53 := R(
    Q(E(0x03, 0x23, 2), E(0x06, 0x23, 2), E(0x0a, 0x23, 2), E(0x0f, 0x23, 2)),
    Q(E(0x18, 0x23, 2), E(0x1f, 0x23, 2), E(0x29, 0x23, 2), E(0x38, 0x23, 3)),
    Q(E(0x03, 0x3e, 2), E(0x06, 0x3e, 2), E(0x0a, 0x3e, 2), E(0x0f, 0x3e, 2)),
    Q(E(0x18, 0x3e, 2), E(0x1f, 0x3e, 2), E(0x29, 0x3e, 2), E(0x38, 0x3e, 3)))
  const ROW_54 := R(
    Q(E(0x01, 0x00, 2), E(0x16, 0x00, 3), E(0x01, 0x24, 2), E(0x16, 0x24, 3)),
    Q(E(0x01, 0x40, 2), E(0x16, 0x40, 3), E(0x01, 0x5b, 2), E(0x16, 0x5b, 3)),
    Q(E(0x01, 0x5d, 2), E(0x16, 0x5d, 3), E(0x01, 0x7e, 2), E(0x16, 0x7e, 3)),
    Q(E(0x00, 0x5e, 2), E(0x00, 0x7d, 2), E(0x5d, 0x00, 0), E(0x5e, 0x00, 0)))
  const ROW_55 := R(
    Q(E(0x02, 0x00, 2), E(0x09, 0x00, 2), E(0x17, 0x00, 2), E(0x28, 0x00, 3)),
    Q(E(0x02, 0x24, 2), E(0x09, 0x24, 2), E(0x17, 0x24, 2), E(0x28, 0x24, 3)),
    Q(E(0x02, 0x40, 2), E(0x09, 0x40, 2), E(0x17, 0x40, 2), E(0x28, 0x40, 3)),
    Q(E(0x02, 0x5b, 2), E(0x09, 0x5b, 2), E(0x17, 0x5b, 2), E(0x28, 0x5b, 3)))
  const ROW_56 := R(
    Q(E(0x03, 0x00, 2), E(0x06, 0x00, 2), E(0x0a, 0x00, 2), E(0x0f, 0x00, 2)),
    Q(E(0x18, 0x00, 2), E(0x1f, 0x00, 2), E(0x29, 0x00, 2), E(0x38, 0x00, 3)),
    Q(E(0x03, 0x24, 2), E(0x06, 0x24, 2), E(0x0a, 0x24, 2), E(0x0f, 0x24, 2)),
    Q(E(0x18, 0x24, 2), E(0x1f, 0x24, 2), E(0x29, 0x24, 2), E(0x38, 0x24, 3)))
  const ROW_57 := R(
    Q(E(0x03, 0x40, 2), E(0x06, 0x40, 2), E(0x0a, 0x40, 2), E(0x0f, 0x40, 2)),
    Q(E(0x18, 0x40, 2), E(0x1f, 0x40, 2), E(0x29, 0x40, 2), E(0x38, 0x40, 3)),
    Q(E(0x03, 0x5b, 2), E(0x06, 0x5b, 2), E(0x0a, 0x5b, 2), E(0x0f, 0x5b, 2)),
    Q(E(0x18, 0x5b, 2), E(0x1f, 0x5b, 2), E(0x29, 0x5b, 2), E(0x38, 0x5b, 3)))
  const ROW_58 := R(
    Q(E(0x02, 0x5d, 2), E(0x09, 0x5d, 2), E(0x17, 0x5d, 2), E(0x28, 0x5d, 3)),
    Q(E(0x02, 0x7e, 2), E(0x09, 0x7e, 2), E(0x17, 0x7e, 2), E(0x28, 0x7e, 3)),
    Q(E(0x01, 0x5e, 2), E(0x16, 0x5e, 3), E(0x01, 0x7d, 2), E(0x16, 0x7d, 3)),
    Q(E(0x00, 0x3c, 2), E(0x00, 0x60, 2), E(0x00, 0x7b, 2), E(0x5f, 0x00, 0)))
  const ROW_59 := R(
    Q(E(0x03, 0x5d, 2), E(0x06, 0x5d, 2), E(0x0a, 0x5d, 2), E(0x0f, 0x5d, 2)),
    Q(E(0x18, 0x5d, 2), E(0x1f, 0x5d, 2), E(0x29, 0x5d, 2), E(0x38, 0x5d, 3)),
    Q(E(0x03, 0x7e, 2), E(0x06, 0x7e, 2), E(0x0a, 0x7e, 2), E(0x0f, 0x7e, 2)),
    Q(E(0x18, 0x7e, 2), E(0x1f, 0x7e, 2), E(0x29, 0x7e, 2), E(0x38, 0x7e, 3)))
  const ROW_5a := R(
    Q(E(0x02, 0x5e, 2), E(0x09, 0x5e, 2), E(0x17, 0x5e, 2), E(0x28, 0x5e, 3)),
    Q(E(0x02, 0x7d, 2), E(0x09, 0x7d, 2), E(0x17, 0x7d, 2), E(0x28, 0x7d, 3)),
    Q(E(0x01, 0x3c, 2), E(0x16, 0x3c, 3), E(0x01, 0x60, 2), E(0x16, 0x60, 3)),
    Q(E(0x01, 0x7b, 2), E(0x16, 0x7b, 3), E(0x60, 0x00, 0), E(0x6e, 0x00, 0)))
  const ROW_5b := R(
    Q(E(0x03, 0x5e, 2), E(0x06, 0x5e, 2), E(0x0a, 0x5e, 2), E(0x0f, 0x5e, 2)),
    Q(E(0x18, 0x5e, 2), E(0x1f, 0x5e, 2), E(0x29, 0x5e, 2), E(0x38, 0x5e, 3)),
    Q(E(0x03, 0x7d, 2), E(0x06, 0x7d, 2), E(0x0a, 0x7d, 2), E(0x0f, 0x7d, 2)),
    Q(E(0x18, 0x7d, 2), E(0x1f, 0x7d, 2), E(0x29, 0x7d, 2), E(0x38, 0x7d, 3)))
  const ROW_5c := R(
    Q(E(0x02, 0x3c, 2), E(0x09, 0x3c, 2), E(0x17, 0x3c, 2), E(0x28, 0x3c, 3)),
    Q(E(0x02, 0x60, 2), E(0x09, 0x60, 2), E(0x17, 0x60, 2), E(0x28, 0x60, 3)),
    Q(E(0x02, 0x7b, 2), E(0x09, 0x7b, 2), E(0x17, 0x7b, 2), E(0x28, 0x7b, 3)),
    Q(E(0x61, 0x00, 0), E(0x65, 0x00, 0), E(0x6f, 0x00, 0), E(0x85, 0x00, 0)))
  const ROW_5d := R(
    Q(E(0x03, 0x3c, 2), E(0x06, 0x3c, 2), E(0x0a, 0x3c, 2), E(0x0f, 0x3c, 2)),
    Q(E(0x18, 0x3c, 2), E(0x1f, 0x3c, 2), E(0x29, 0x3c, 2), E(0x38, 0x3c, 3)),
    Q(E(0x03, 0x60, 2), E(0x06, 0x60, 2), E(0x0a, 0x60, 2), E(0x0f, 0x60, 2)),
    Q(E(0x18, 0x60, 2), E(0x1f, 0x60, 2), E(0x29, 0x60, 2), E(0x38, 0x60, 3)))
  const ROW_5e := R(
    Q(E(0x03, 0x7b, 2), E(0x06, 0x7b, 2), E(0x0a, 0x7b, 2), E(0x0f, 0x7b, 2)),
    Q(E(0x18, 0x7b, 2), E(0x1f, 0x7b, 2), E(0x29, 0x7b, 2), E(0x38, 0x7b, 3)),
    Q(E(0x62, 0x00, 0), E(0x63, 0x00, 0), E(0x66, 0x00, 0), E(0x69, 0x00, 0)),
    Q(E(0x70, 0x00, 0), E(0x77, 0x00, 0), E(0x86, 0x00, 0), E(0x99, 0x00, 0)))
  const ROW_5f := R(
    Q(E(0x00, 0x5c, 2), E(0x00, 0xc3, 2), E(0x00, 0xd0, 2), E(0x64, 0x00, 0)),
    Q(E(0x67, 0x00, 0), E(0x68, 0x00, 0), E(0x6a, 0x00, 0), E(0x6b, 0x00, 0)),
    Q(E(0x71, 0x00, 0), E(0x74, 0x00, 0), E(0x78, 0x00, 0), E(0x7e, 0x00, 0)),
    Q(E(0x87, 0x00, 0), E(0x8e, 0x00, 0), E(0x9a, 0x00, 0), E(0xa9, 0x00, 0)))
  const ROW_60 := R(
    Q(E(0x01, 0x5c, 2), E(0x16, 0x5c, 3), E(0x01, 0xc3, 2), E(0x16, 0xc3, 3)),
    Q(E(0x01, 0xd0, 2), E(0x16, 0xd0, 3), E(0x00, 0x80, 2), E(0x00, 0x82, 2)),
    Q(E(0x00, 0x83, 2), E(0x00, 0xa2, 2), E(0x00, 0xb8, 2), E(0x00, 0xc2, 2)),
    Q(E(0x00, 0xe0, 2), E(0x00, 0xe2, 2), E(0x6c, 0x00, 0), E(0x6d, 0x00, 0)))
  const ROW_61 := R(
    Q(E(0x02, 0x5c, 2), E(0x09, 0x5c, 2), E(0x17, 0x5c, 2), E(0x28, 0x5c, 3)),
    Q(E(0x02, 0xc3, 2), E(0x09, 0xc3, 2), E(0x17, 0xc3, 2), E(0x28, 0xc3, 3)),
    Q(E(0x02, 0xd0, 2), E(0x09, 0xd0, 2), E(0x17, 0xd0, 2), E(0x28, 0xd0, 3)),
    Q(E(0x01, 0x80, 2), E(0x16, 0x80, 3), E(0x01, 0x82, 2), E(0x16, 0x82, 3)))
  const ROW_62 := R(
    Q(E(0x03, 0x5c, 2), E(0x06, 0x5c, 2), E(0x0a, 0x5c, 2), E(0x0f, 0x5c, 2)),
    Q(E(0x18, 0x5c, 2), E(0x1f, 0x5c, 2), E(0x29, 0x5c, 2), E(0x38, 0x5c, 3)),
    Q(E(0x03, 0xc3, 2), E(0x06, 0xc3, 2), E(0x0a, 0xc3, 2), E(0x0f, 0xc3, 2)),
    Q(E(0x18, 0xc3, 2), E(0x1f, 0xc3, 2), E(0x29, 0xc3, 2), E(0x38, 0xc3, 3)))
  const ROW_63 := R(
    Q(E(0x03, 0xd0, 2), E(0x06, 0xd0, 2), E(0x0a, 0xd0, 2), E(0x0f, 0xd0, 2)),
    Q(E(0x18, 0xd0, 2), E(0x1f, 0xd0, 2), E(0x29, 0xd0, 2), E(0x38, 0xd0, 3)),
    Q(E(0x02, 0x80, 2), E(0x09, 0x80, 2), E(0x17, 0x80, 2), E(0x28, 0x80, 3)),
    Q(E(0x02, 0x82, 2), E(0x09, 0x82, 2), E(0x17, 0x82, 2), E(0x28, 0x82, 3)))
  const ROW_64 := R(
    Q(E(0x03, 0x80, 2), E(0x06, 0x80, 2), E(0x0a, 0x80, 2), E(0x0f, 0x80, 2)),
    Q(E(0x18, 0x80, 2), E(0x1f, 0x80, 2), E(0x29, 0x80, 2), E(0x38, 0x80, 3)),
    Q(E(0x03, 0x82, 2), E(0x06, 0x82, 2), E(0x0a, 0x82, 2), E(0x0f, 0x82, 2)),
    Q(E(0x18, 0x82, 2), E(0x1f, 0x82, 2), E(0x29, 0x82, 2), E(0x38, 0x82, 3)))
  const ROW_65 := R(
    Q(E(0x01, 0x83, 2), E(0x16, 0x83, 3), E(0x01, 0xa2, 2), E(0x16, 0xa2, 3)),
    Q(E(0x01, 0xb8, 2), E(0x16, 0xb8, 3), E(0x01, 0xc2, 2), E(0x16, 0xc2, 3)),
    Q(E(0x01, 0xe0, 2), E(0x16, 0xe0, 3), E(0x01, 0xe2, 2), E(0x16, 0xe2, 3)),
    Q(E(0x00, 0x99, 2), E(0x00, 0xa1, 2), E(0x00, 0xa7, 2), E(0x00, 0xac, 2)))
  const ROW_66 := R(
    Q(E(0x02, 0x83, 2), E(0x09, 0x83, 2), E(0x17, 0x83, 2), E(0x28, 0x83, 3)),
    Q(E(0x02, 0xa2, 2), E(0x09, 0xa2, 2), E(0x17, 0xa2, 2), E(0x28, 0xa2, 3)),
    Q(E(0x02, 0xb8, 2), E(0x09, 0xb8, 2), E(0x17, 0xb8, 2), E(0x28, 0xb8, 3)),
    Q(E(0x02, 0xc2, 2), E(0x09, 0xc2, 2), E(0x17, 0xc2, 2), E(0x28, 0xc2, 3)))
  const ROW_67 := R(
    Q(E(0x03, 0x83, 2), E(0x06, 0x83, 2), E(0x0a, 0x83, 2), E(0x0f, 0x83, 2)),
    Q(E(0x18, 0x83, 2), E(0x1f, 0x83, 2), E(0x29, 0x83, 2), E(0x38, 0x83, 3)),
    Q(E(0x03, 0xa2, 2), E(0x06, 0xa2, 2), E(0x0a, 0xa2, 2), E(0x0f, 0xa2, 2)),
    Q(E(0x18, 0xa2, 2), E(0x1f, 0xa2, 2), E(0x29, 0xa2, 2), E(0x38, 0xa2, 3)))
  const ROW_68 := R(
    Q(E(0x03, 0xb8, 2), E(0x06, 0xb8, 2), E(0x0a, 0xb8, 2), E(0x0f, 0xb8, 2)),
    Q(E(0x18, 0xb8, 2), E(0x1f, 0xb8, 2), E(0x29, 0xb8, 2), E(0x38, 0xb8, 3)),
    Q(E(0x03, 0xc2, 2), E(0x06, 0xc2, 2), E(0x0a, 0xc2, 2), E(0x0f, 0xc2, 2)),
    Q(E(0x18, 0xc2, 2), E(0x1f, 0xc2, 2), E(0x29, 0xc2, 2), E(0x38, 0xc2, 3)))
  const ROW_69 := R(
    Q(E(0x02, 0xe0, 2), E(0x09, 0xe0, 2), E(0x17, 0xe0, 2), E(0x28, 0xe0, 3)),
    Q(E(0x02, 0xe2, 2), E(0x09, 0xe2, 2), E(0x17, 0xe2, 2), E(0x28, 0xe2, 3)),
    Q(E(0x01, 0x99, 2), E(0x16, 0x99, 3), E(0x01, 0xa1, 2), E(0x16, 0xa1, 3)),
    Q(E(0x01, 0xa7, 2), E(0x16, 0xa7, 3), E(0x01, 0xac, 2), E(0x16, 0xac, 3)))
  const ROW_6a := R(
    Q(E(0x03, 0xe0, 2), E(0x06, 0xe0, 2), E(0x0a, 0xe0, 2), E(0x0f, 0xe0, 2)),
    Q(E(0x18, 0xe0, 2), E(0x1f, 0xe0, 2), E(0x29, 0xe0, 2), E(0x38, 0xe0, 3)),
    Q(E(0x03, 0xe2, 2), E(0x06, 0xe2, 2), E(0x0a, 0xe2, 2), E(0x0f, 0xe2, 2)),
    Q(E(0x18, 0xe2, 2), E(0x1f, 0xe2, 2), E(0x29, 0xe2, 2), E(0x38, 0xe2, 3)))
  const ROW_6b := R(
    Q(E(0x02, 0x99, 2), E(0x09, 0x99, 2), E(0x17, 0x99, 2), E(0x28, 0x99, 3)),
    Q(E(0x02, 0xa1, 2), E(0x09, 0xa1, 2), E(0x17, 0xa1, 2), E(0x28, 0xa1, 3)),
    Q(E(0x02, 0xa7, 2), E(0x09, 0xa7, 2), E(0x17, 0xa7, 2), E(0x28, 0xa7, 3)),
    Q(E(0x02, 0xac, 2), E(0x09, 0xac, 2), E(0x17, 0xac, 2), E(0x28, 0xac, 3)))
  const ROW_6c := R(
    Q(E(0x03, 0x99, 2), E(0x06, 0x99, 2), E(0x0a, 0x99, 2), E(0x0f, 0x99, 2)),
    Q(E(0x18, 0x99, 2), E(0x1f, 0x99, 2), E(0x29, 0x99, 2), E(0x38, 0x99, 3)),
    Q(E(0x03, 0xa1, 2), E(0x06, 0xa1, 2), E(0x0a, 0xa1, 2), E(0x0f, 0xa1, 2)),
    Q(E(0x18, 0xa1, 2), E(0x1f, 0xa1, 2), E(0x29, 0xa1, 2), E(0x38, 0xa1, 3)))
  const ROW_6d := R(
    Q(E(0x03, 0xa7, 2), E(0x06, 0xa7, 2), E(0x0a, 0xa7, 2), E(0x0f, 0xa7, 2)),
    Q(E(0x18, 0xa7, 2), E(0x1f, 0xa7, 2), E(0x29, 0xa7, 2), E(0x38, 0xa7, 3)),
    Q(E(0x03, 0xac, 2), E(0x06, 0xac, 2), E(0x0a, 0xac, 2), E(0x0f, 0xac, 2)),
    Q(E(0x18, 0xac, 2), E(0x1f, 0xac, 2), E(0x29, 0xac, 2), E(0x38, 0xac, 3)))
  const ROW_6e := R(
    Q(E(0x72, 0x00, 0), E(0x73, 0x00, 0), E(0x75, 0x00, 0), E(0x76, 0x00, 0)),
    Q(E(0x79, 0x00, 0), E(0x7b, 0x00, 0), E(0x7f, 0x00, 0), E(0x82, 0x00, 0)),
    Q(E(0x88, 0x00, 0), E(0x8b, 0x00, 0), E(0x8f, 0x00, 0), E(0x92, 0x00, 0)),
    Q(E(0x9b, 0x00, 0), E(0xa2, 0x00, 0), E(0xaa, 0x00, 0), E(0xb4, 0x00, 0)))
  const ROW_6f := R(
    Q(E(0x00, 0xb0, 2), E(0x00, 0xb1, 2), E(0x00, 0xb3, 2), E(0x00, 0xd1, 2)),
    Q(E(0x00, 0xd8, 2), E(0x00, 0xd9, 2), E(0x00, 0xe3, 2), E(0x00, 0xe5, 2)),
    Q(E(0x00, 0xe6, 2), E(0x7a, 0x00, 0), E(0x7c, 0x00, 0), E(0x7d, 0x00, 0)),
    Q(E(0x80, 0x00, 0), E(0x81, 0x00, 0), E(0x83, 0x00, 0), E(0x84, 0x00, 0)))
  const ROW_70 := R(
    Q(E(0x01, 0xb0, 2), E(0x16, 0xb0, 3), E(0x01, 0xb1, 2), E(0x16, 0xb1, 3)),
    Q(E(0x01, 0xb3, 2), E(0x16, 0xb3, 3), E(0x01, 0xd1, 2), E(0x16, 0xd1, 3)),
    Q(E(0x01, 0xd8, 2), E(0x16, 0xd8, 3), E(0x01, 0xd9, 2), E(0x16, 0xd9, 3)),
    Q(E(0x01, 0xe3, 2), E(0x16, 0xe3, 3), E(0x01, 0xe5, 2), E(0x16, 0xe5, 3)))
  const ROW_71 := R(
    Q(E(0x02, 0xb0, 2), E(0x09, 0xb0, 2), E(0x17, 0xb0, 2), E(0x28, 0xb0, 3)),
    Q(E(0x02, 0xb1, 2), E(0x09, 0xb1, 2), E(0x17, 0xb1, 2), E(0x28, 0xb1, 3)),
    Q(E(0x02, 0xb3, 2), E(0x09, 0xb3, 2), E(0x17, 0xb3, 2), E(0x28, 0xb3, 3)),
    Q(E(0x02, 0xd1, 2), E(0x09, 0xd1, 2), E(0x17, 0xd1, 2), E(0x28, 0xd1, 3)))
  const ROW_72 := R(
    Q(E(0x03, 0xb0, 2), E(0x06, 0xb0, 2), E(0x0a, 0xb0, 2), E(0x0f, 0xb0, 2)),
    Q(E(0x18, 0xb0, 2), E(0x1f, 0xb0, 2), E(0x29, 0xb0, 2), E(0x38, 0xb0, 3)),
    Q(E(0x03, 0xb1, 2), E(0x06, 0xb1, 2), E(0x0a, 0xb1, 2), E(0x0f, 0xb1, 2)),
    Q(E(0x18, 0xb1, 2), E(0x1f, 0xb1, 2), E(0x29, 0xb1, 2), E(0x38, 0xb1, 3)))
  const ROW_73 := R(
    Q(E(0x03, 0xb3, 2), E(0x06, 0xb3, 2), E(0x0a, 0xb3, 2), E(0x0f, 0xb3, 2)),
    Q(E(0x18, 0xb3, 2), E(0x1f, 0xb3, 2), E(0x29, 0xb3, 2), E(0x38, 0xb3, 3)),
    Q(E(0x03, 0xd1, 2), E(0x06, 0xd1, 2), E(0x0a, 0xd1, 2), E(0x0f, 0xd1, 2)),
    Q(E(0x18, 0xd1, 2), E(0x1f, 0xd1, 2), E(0x29, 0xd1, 2), E(0x38, 0xd1, 3)))
  const ROW_74 := R(
    Q(E(0x02, 0xd8, 2), E(0x09, 0xd8, 2), E(0x17, 0xd8, 2), E(0x28, 0xd8, 3)),
    Q(E(0x02, 0xd9, 2), E(0x09, 0xd9, 2), E(0x17, 0xd9, 2), E(0x28, 0xd9, 3)),
    Q(E(0x02, 0xe3, 2), E(0x09, 0xe3, 2), E(0x17, 0xe3, 2), E(0x28, 0xe3, 3)),
    Q(E(0x02, 0xe5, 2), E(0x09, 0xe5, 2), E(0x17, 0xe5, 2), E(0x28, 0xe5, 3)))
  const ROW_75 := R(
    Q(E(0x03, 0xd8, 2), E(0x06, 0xd8, 2), E(0x0a, 0xd8, 2), E(0x0f, 0xd8, 2)),
    Q(E(0x18, 0xd8, 2), E(0x1f, 0xd8, 2), E(0x29, 0xd8, 2), E(0x38, 0xd8, 3)),
    Q(E(0x03, 0xd9, 2), E(0x06, 0xd9, 2), E(0x0a, 0xd9, 2), E(0x0f, 0xd9, 2)),
    Q(E(0x18, 0xd9, 2), E(0x1f, 0xd9, 2), E(0x29, 0xd9, 2), E(0x38, 0xd9, 3)))
  const ROW_76 := R(
    Q(E(0x03, 0xe3, 2), E(0x06, 0xe3, 2), E(0x0a, 0xe3, 2), E(0x0f, 0xe3, 2)),
    Q(E(0x18, 0xe3, 2), E(0x1f, 0xe3, 2), E(0x29, 0xe3, 2), E(0x38, 0xe3, 3)),
    Q(E(0x03, 0xe5, 2), E(0x06, 0xe5, 2), E(0x0a, 0xe5, 2), E(0x0f, 0xe5, 2)),
    Q(E(0x18, 0xe5, 2), E(0x1f, 0xe5, 2), E(0x29, 0xe5, 2), E(0x38, 0xe5, 3)))
  const ROW_77 := R(
    Q(E(0x01, 0xe6, 2), E(0x16, 0xe6, 3), E(0x00, 0x81, 2), E(0x00, 0x84, 2)),
    Q(E(0x00, 0x85, 2), E(0x00, 0x86, 2), E(0x00, 0x88, 2), E(0x00, 0x92, 2)),
    Q(E(0x00, 0x9a, 2), E(0x00, 0x9c, 2), E(0x00, 0xa0, 2), E(0x00, 0xa3, 2)),
    Q(E(0x00, 0xa4, 2), E(0x00, 0xa9, 2), E(0x00, 0xaa, 2), E(0x00, 0xad, 2)))
  const ROW_78 := R(
    Q(E(0x02, 0xe6, 2), E(0x09, 0xe6, 2), E(0x17, 0xe6, 2), E(0x28, 0xe6, 3)),
    Q(E(0x01, 0x81, 2), E(0x16, 0x81, 3), E(0x01, 0x84, 2), E(0x16, 0x84, 3)),
    Q(E(0x01, 0x85, 2), E(0x16, 0x85, 3), E(0x01, 0x86, 2), E(0x16, 0x86, 3)),
    Q(E(0x01, 0x88, 2), E(0x16, 0x88, 3), E(0x01, 0x92, 2), E(0x16, 0x92, 3)))
  const ROW_79 := R(
    Q(E(0x03, 0xe6, 2), E(0x06, 0xe6, 2), E(0x0a, 0xe6, 2), E(0x0f, 0xe6, 2)),
    Q(E(0x18, 0xe6, 2), E(0x1f, 0xe6, 2), E(0x29, 0xe6, 2), E(0x38, 0xe6, 3)),
    Q(E(0x02, 0x81, 2), E(0x09, 0x81, 2), E(0x17, 0x81, 2), E(0x28, 0x81, 3)),
    Q(E(0x02, 0x84, 2), E(0x09, 0x84, 2), E(0x17, 0x84, 2), E(0x28, 0x84, 3)))
  const ROW_7a := R(
    Q(E(0x03, 0x81, 2), E(0x06, 0x81, 2), E(0x0a, 0x81, 2), E(0x0f, 0x81, 2)),
    Q(E(0x18, 0x81, 2), E(0x1f, 0x81, 2), E(0x29, 0x81, 2), E(0x38, 0x81, 3)),
    Q(E(0x03, 0x84, 2), E(0x06, 0x84, 2), E(0x0a, 0x84, 2), E(0x0f, 0x84, 2)),
    Q(E(0x18, 0x84, 2), E(0x1f, 0x84, 2), E(0x29, 0x84, 2), E(0x38, 0x84, 3)))
  const ROW_7b := R(
    Q(E(0x02, 0x85, 2), E(0x09, 0x85, 2), E(0x17, 0x85, 2), E(0x28, 0x85, 3)),
    Q(E(0x02, 0x86, 2), E(0x09, 0x86, 2), E(0x17, 0x86, 2), E(0x28, 0x86, 3)),
    Q(E(0x02, 0x88, 2), E(0x09, 0x88, 2), E(0x17, 0x88, 2), E(0x28, 0x88, 3)),
    Q(E(0x02, 0x92, 2), E(0x09, 0x92, 2), E(0x17, 0x92, 2), E(0x28, 0x92, 3)))
  const ROW_7c := R(
    Q(E(0x03, 0x85, 2), E(0x06, 0x85, 2), E(0x0a, 0x85, 2), E(0x0f, 0x85, 2)),
    Q(E(0x18, 0x85, 2), E(0x1f, 0x85, 2), E(0x29, 0x85, 2), E(0x38, 0x85, 3)),
    Q(E(0x03, 0x86, 2), E(0x06, 0x86, 2), E(0x0a, 0x86, 2), E(0x0f, 0x86, 2)),
    Q(E(0x18, 0x86, 2), E(0x1f, 0x86, 2), E(0x29, 0x86, 2), E(0x38, 0x86, 3)))
  const ROW_7d := R(
    Q(E(0x03, 0x88, 2), E(0x06, 0x88, 2), E(0x0a, 0x88, 2), E(0x0f, 0x88, 2)),
    Q(E(0x18, 0x88, 2), E(0x1f, 0x88, 2), E(0x29, 0x88, 2), E(0x38, 0x88, 3)),
    Q(E(0x03, 0x92, 2), E(0x06, 0x92, 2), E(0x0a, 0x92, 2), E(0x0f, 0x92, 2)),
    Q(E(0x18, 0x92, 2), E(0x1f, 0x92, 2), E(0x29, 0x92, 2), E(0x38, 0x92, 3)))
  const ROW_7e := R(
    Q(E(0x01, 0x9a, 2), E(0x16, 0x9a, 3), E(0x01, 0x9c, 2), E(0x16, 0x9c, 3)),
    Q(E(0x01, 0xa0, 2), E(0x16, 0xa0, 3), E(0x01, 0xa3, 2), E(0x16, 0xa3, 3)),
    Q(E(0x01, 0xa4, 2), E(0x16, 0xa4, 3), E(0x01, 0xa9, 2), E(0x16, 0xa9, 3)),
    Q(E(0x01, 0xaa, 2), E(0x16, 0xaa, 3), E(0x01, 0xad, 2), E(0x16, 0xad, 3)))
  const ROW_7f := R(
    Q(E(0x02, 0x9a, 2), E(0x09, 0x9a, 2), E(0x17, 0x9a, 2), E(0x28, 0x9a, 3)),
    Q(E(0x02, 0x9c, 2), E(0x09, 0x9c, 2), E(0x17, 0x9c, 2), E(0x28, 0x9c, 3)),
    Q(E(0x02, 0xa0, 2), E(0x09, 0xa0, 2), E(0x17, 0xa0, 2), E(0x28, 0xa0, 3)),
    Q(E(0x02, 0xa3, 2), E(0x09, 0xa3, 2), E(0x17, 0xa3, 2), E(0x28, 0xa3, 3)))
  const ROW_80 := R(
    Q(E(0x03, 0x9a, 2), E(0x06, 0x9a, 2), E(0x0a, 0x9a, 2), E(0x0f, 0x9a, 2)),
    Q(E(0x18, 0x9a, 2), E(0x1f, 0x9a, 2), E(0x29, 0x9a, 2), E(0x38, 0x9a, 3)),
    Q(E(0x03, 0x9c, 2), E(0x06, 0x9c, 2), E(0x0a, 0x9c, 2), E(0x0f, 0x9c, 2)),
    Q(E(0x18, 0x9c, 2), E(0x1f, 0x9c, 2), E(0x29, 0x9c, 2), E(0x38, 0x9c, 3)))
  const ROW_81 := R(
    Q(E(0x03, 0xa0, 2), E(0x06, 0xa0, 2), E(0x0a, 0xa0, 2), E(0x0f, 0xa0, 2)),
    Q(E(0x18, 0xa0, 2), E(0x1f, 0xa0, 2), E(0x29, 0xa0, 2), E(0x38, 0xa0, 3)),
    Q(E(0x03, 0xa3, 2), E(0x06, 0xa3, 2), E(0x0a, 0xa3, 2), E(0x0f, 0xa3, 2)),
    Q(E(0x18, 0xa3, 2), E(0x1f, 0xa3, 2), E(0x29, 0xa3, 2), E(0x38, 0xa3, 3)))
  const ROW_82 := R(
    Q(E(0x02, 0xa4, 2), E(0x09, 0xa4, 2), E(0x17, 0xa4, 2), E(0x28, 0xa4, 3)),
    Q(E(0x02, 0xa9, 2), E(0x09, 0xa9, 2), E(0x17, 0xa9, 2), E(0x28, 0xa9, 3)),
    Q(E(0x02, 0xaa, 2), E(0x09, 0xaa, 2), E(0x17, 0xaa, 2), E(0x28, 0xaa, 3)),
    Q(E(0x02, 0xad, 2), E(0x09, 0xad, 2), E(0x17, 0xad, 2), E(0x28, 0xad, 3)))
  const ROW_83 := R(
    Q(E(0x03, 0xa4, 2), E(0x06, 0xa4, 2), E(0x0a, 0xa4, 2), E(0x0f, 0xa4, 2)),
    Q(E(0x18, 0xa4, 2), E(0x1f, 0xa4, 2), E(0x29, 0xa4, 2), E(0x38, 0xa4, 3)),
    Q(E(0x03, 0xa9, 2), E(0x06, 0xa9, 2), E(0x0a, 0xa9, 2), E(0x0f, 0xa9, 2)),
    Q(E(0x18, 0xa9, 2), E(0x1f, 0xa9, 2), E(0x29, 0xa9, 2), E(0x38, 0xa9, 3)))
  const ROW_84 := R(
    Q(E(0x03, 0xaa, 2), E(0x06, 0xaa, 2), E(0x0a, 0xaa, 2), E(0x0f, 0xaa, 2)),
    Q(E(0x18, 0xaa, 2), E(0x1f, 0xaa, 2), E(0x29, 0xaa, 2), E(0x38, 0xaa, 3)),
    Q(E(0x03, 0xad, 2), E(0x06, 0xad, 2), E(0x0a, 0xad, 2), E(0x0f, 0xad, 2)),
    Q(E(0x18, 0xad, 2), E(0x1f, 0xad, 2), E(0x29, 0xad, 2), E(0x38, 0xad, 3)))
  const ROW_85 := R(
    Q(E(0x89, 0x00, 0), E(0x8a, 0x00, 0), E(0x8c, 0x00, 0), E(0x8d, 0x00, 0)),
    Q(E(0x90, 0x00, 0), E(0x91, 0x00, 0), E(0x93, 0x00, 0), E(0x96, 0x00, 0)),
    Q(E(0x9c, 0x00, 0), E(0x9f, 0x00, 0), E(0xa3, 0x00, 0), E(0xa6, 0x00, 0)),
    Q(E(0xab, 0x00, 0), E(0xae, 0x00, 0), E(0xb5, 0x00, 0), E(0xbe, 0x00, 0)))
  const ROW_86 := R(
    Q(E(0x00, 0xb2, 2), E(0x00, 0xb5, 2), E(0x00, 0xb9, 2), E(0x00, 0xba, 2)),
    Q(E(0x00, 0xbb, 2), E(0x00, 0xbd, 2), E(0x00, 0xbe, 2), E(0x00, 0xc4, 2)),
    Q(E(0x00, 0xc6, 2), E(0x00, 0xe4, 2), E(0x00, 0xe8, 2), E(0x00, 0xe9, 2)),
    Q(E(0x94, 0x00, 0), E(0x95, 0x00, 0), E(0x97, 0x00, 0), E(0x98, 0x00, 0)))
  const ROW_87 := R(
    Q(E(0x01, 0xb2, 2), E(0x16, 0xb2, 3), E(0x01, 0xb5, 2), E(0x16, 0xb5, 3)),
    Q(E(0x01, 0xb9, 2), E(0x16, 0xb9, 3), E(0x01, 0xba, 2), E(0x16, 0xba, 3)),
    Q(E(0x01, 0xbb, 2), E(0x16, 0xbb, 3), E(0x01, 0xbd, 2), E(0x16, 0xbd, 3)),
    Q(E(0x01, 0xbe, 2), E(0x16, 0xbe, 3), E(0x01, 0xc4, 2), E(0x16, 0xc4, 3)))
  const ROW_88 := R(
    Q(E(0x02, 0xb2, 2), E(0x09, 0xb2, 2), E(0x17, 0xb2, 2), E(0x28, 0xb2, 3)),
    Q(E(0x02, 0xb5, 2), E(0x09, 0xb5, 2), E(0x17, 0xb5, 2), E(0x28, 0xb5, 3)),
    Q(E(0x02, 0xb9, 2), E(0x09, 0xb9, 2), E(0x17, 0xb9, 2), E(0x28, 0xb9, 3)),
    Q(E(0x02, 0xba, 2), E(0x09, 0xba, 2), E(0x17, 0xba, 2), E(0x28, 0xba, 3)))
  const ROW_89 := R(
    Q(E(0x03, 0xb2, 2), E(0x06, 0xb2, 2), E(0x0a, 0xb2, 2), E(0x0f, 0xb2, 2)),
    Q(E(0x18, 0xb2, 2), E(0x1f, 0xb2, 2), E(0x29, 0xb2, 2), E(0x38, 0xb2, 3)),
    Q(E(0x03, 0xb5, 2), E(0x06, 0xb5, 2), E(0x0a, 0xb5, 2), E(0x0f, 0xb5, 2)),
    Q(E(0x18, 0xb5, 2), E(0x1f, 0xb5, 2), E(0x29, 0xb5, 2), E(0x38, 0xb5, 3)))
  const ROW_8a := R(
    Q(E(0x03, 0xb9, 2), E(0x06, 0xb9, 2), E(0x0a, 0xb9, 2), E(0x0f, 0xb9, 2)),
    Q(E(0x18, 0xb9, 2), E(0x1f, 0xb9, 2), E(0x29, 0xb9, 2), E(0x38, 0xb9, 3)),
    Q(E(0x03, 0xba, 2), E(0x06, 0xba, 2), E(0x0a, 0xba, 2), E(0x0f, 0xba, 2)),
    Q(E(0x18, 0xba, 2), E(0x1f, 0xba, 2), E(0x29, 0xba, 2), E(0x38, 0xba, 3)))
  const ROW_8b := R(
    Q(E(0x02, 0xbb, 2), E(0x09, 0xbb, 2), E(0x17, 0xbb, 2), E(0x28, 0xbb, 3)),
    Q(E(0x02, 0xbd, 2), E(0x09, 0xbd, 2), E(0x17, 0xbd, 2), E(0x28, 0xbd, 3)),
    Q(E(0x02, 0xbe, 2), E(0x09, 0xbe, 2), E(0x17, 0xbe, 2), E(0x28, 0xbe, 3)),
    Q(E(0x02, 0xc4, 2), E(0x09, 0xc4, 2), E(0x17, 0xc4, 2), E(0x28, 0xc4, 3)))
  const ROW_8c := R(
    Q(E(0x03, 0xbb, 2), E(0x06, 0xbb, 2), E(0x0a, 0xbb, 2), E(0x0f, 0xbb, 2)),
    Q(E(0x18, 0xbb, 2), E(0x1f, 0xbb, 2), E(0x29, 0xbb, 2), E(0x38, 0xbb, 3)),
    Q(E(0x03, 0xbd, 2), E(0x06, 0xbd, 2), E(0x0a, 0xbd, 2), E(0x0f, 0xbd, 2)),
    Q(E(0x18, 0xbd, 2), E(0x1f, 0xbd, 2), E(0x29, 0xbd, 2), E(0x38, 0xbd, 3)))
  const ROW_8d := R(
    Q(E(0x03, 0xbe, 2), E(0x06, 0xbe, 2), E(0x0a, 0xbe, 2), E(0x0f, 0xbe, 2)),
    Q(E(0x18, 0xbe, 2), E(0x1f, 0xbe, 2), E(0x29, 0xbe, 2), E(0x38, 0xbe, 3)),
    Q(E(0x03, 0xc4, 2), E(0x06, 0xc4, 2), E(0x0a, 0xc4, 2), E(0x0f, 0xc4, 2)),
    Q(E(0x18, 0xc4, 2), E(0x1f, 0xc4, 2), E(0x29, 0xc4, 2), E(0x38, 0xc4, 3)))
  const ROW_8e := R(
    Q(E(0x01, 0xc6, 2), E(0x16, 0xc6, 3), E(0x01, 0xe4, 2), E(0x16, 0xe4, 3)),
    Q(E(0x01, 0xe8, 2), E(0x16, 0xe8, 3), E(0x01, 0xe9, 2), E(0x16, 0xe9, 3)),
    Q(E(0x00, 0x01, 2), E(0x00, 0x87, 2), E(0x00, 0x89, 2), E(0x00, 0x8a, 2)),
    Q(E(0x00, 0x8b, 2), E(0x00, 0x8c, 2), E(0x00, 0x8d, 2), E(0x00, 0x8f, 2)))
  const ROW_8f := R(
    Q(E(0x02, 0xc6, 2), E(0x09, 0xc6, 2), E(0x17, 0xc6, 2), E(0x28, 0xc6, 3)),
    Q(E(0x02, 0xe4, 2), E(0x09, 0xe4, 2), E(0x17, 0xe4, 2), E(0x28, 0xe4, 3)),
    Q(E(0x02, 0xe8, 2), E(0x09, 0xe8, 2), E(0x17, 0xe8, 2), E(0x28, 0xe8, 3)),
    Q(E(0x02, 0xe9, 2), E(0x09, 0xe9, 2), E(0x17, 0xe9, 2), E(0x28, 0xe9, 3)))
  const ROW_90 := R(
    Q(E(0x03, 0xc6, 2), E(0x06, 0xc6, 2), E(0x0a, 0xc6, 2), E(0x0f, 0xc6, 2)),
    Q(E(0x18, 0xc6, 2), E(0x1f, 0xc6, 2), E(0x29, 0xc6, 2), E(0x38, 0xc6, 3)),
    Q(E(0x03, 0xe4, 2), E(0x06, 0xe4, 2), E(0x0a, 0xe4, 2), E(0x0f, 0xe4, 2)),
    Q(E(0x18, 0xe4, 2), E(0x1f, 0xe4, 2), E(0x29, 0xe4, 2), E(0x38, 0xe4, 3)))
  const ROW_91 := R(
    Q(E(0x03, 0xe8, 2), E(0x06, 0xe8, 2), E(0x0a, 0xe8, 2), E(0x0f, 0xe8, 2)),
    Q(E(0x18, 0xe8, 2), E(0x1f, 0xe8, 2), E(0x29, 0xe8, 2), E(0x38, 0xe8, 3)),
    Q(E(0x03, 0xe9, 2), E(0x06, 0xe9, 2), E(0x0a, 0xe9, 2), E(0x0f, 0xe9, 2)),
    Q(E(0x18, 0xe9, 2), E(0x1f, 0xe9, 2), E(0x29, 0xe9, 2), E(0x38, 0xe9, 3)))
  const ROW_92 := R(
    Q(E(0x01, 0x01, 2), E(0x16, 0x01, 3), E(0x01, 0x87, 2), E(0x16, 0x87, 3)),
    Q(E(0x01, 0x89, 2), E(0x16, 0x89, 3), E(0x01, 0x8a, 2), E(0x16, 0x8a, 3)),
    Q(E(0x01, 0x8b, 2), E(0x16, 0x8b, 3), E(0x01, 0x8c, 2), E(0x16, 0x8c, 3)),
    Q(E(0x01, 0x8d, 2), E(0x16, 0x8d, 3), E(0x01, 0x8f, 2), E(0x16, 0x8f, 3)))
  const ROW_93 := R(
    Q(E(0x02, 0x01, 2), E(0x09, 0x01, 2), E(0x17, 0x01, 2), E(0x28, 0x01, 3)),
    Q(E(0x02, 0x87, 2), E(0x09, 0x87, 2), E(0x17, 0x87, 2), E(0x28, 0x87, 3)),
    Q(E(0x02, 0x89, 2), E(0x09, 0x89, 2), E(0x17, 0x89, 2), E(0x28, 0x89, 3)),
    Q(E(0x02, 0x8a, 2), E(0x09, 0x8a, 2), E(0x17, 0x8a, 2), E(0x28, 0x8a, 3)))
  const ROW_94 := R(
    Q(E(0x03, 0x01, 2), E(0x06, 0x01, 2), E(0x0a, 0x01, 2), E(0x0f, 0x01, 2)),
    Q(E(0x18, 0x01, 2), E(0x1f, 0x01, 2), E(0x29, 0x01, 2), E(0x38, 0x01, 3)),
    Q(E(0x03, 0x87, 2), E(0x06, 0x87, 2), E(0x0a, 0x87, 2), E(0x0f, 0x87, 2)),
    Q(E(0x18, 0x87, 2), E(0x1f, 0x87, 2), E(0x29, 0x87, 2), E(0x38, 0x87, 3)))
  const ROW_95 := R(
    Q(E(0x03, 0x89, 2), E(0x06, 0x89, 2), E(0x0a, 0x89, 2), E(0x0f, 0x89, 2)),
    Q(E(0x18, 0x89, 2), E(0x1f, 0x89, 2), E(0x29, 0x89, 2), E(0x38, 0x89, 3)),
    Q(E(0x03, 0x8a, 2), E(0x06, 0x8a, 2), E(0x0a, 0x8a, 2), E(0x0f, 0x8a, 2)),
    Q(E(0x18, 0x8a, 2), E(0x1f, 0x8a, 2), E(0x29, 0x8a, 2), E(0x38, 0x8a, 3)))
  const ROW_96 := R(
    Q(E(0x02, 0x8b, 2), E(0x09, 0x8b, 2), E(0x17, 0x8b, 2), E(0x28, 0x8b, 3)),
    Q(E(0x02, 0x8c, 2), E(0x09, 0x8c, 2), E(0x17, 0x8c, 2), E(0x28, 0x8c, 3)),
    Q(E(0x02, 0x8d, 2), E(0x09, 0x8d, 2), E(0x17, 0x8d, 2), E(0x28, 0x8d, 3)),
    Q(E(0x02, 0x8f, 2), E(0x09, 0x8f, 2), E(0x17, 0x8f, 2), E(0x28, 0x8f, 3)))
  const ROW_97 := R(
    Q(E(0x03, 0x8b, 2), E(0x06, 0x8b, 2), E(0x0a, 0x8b, 2), E(0x0f, 0x8b, 2)),
    Q(E(0x18, 0x8b, 2), E(0x1f, 0x8b, 2), E(0x29, 0x8b, 2), E(0x38, 0x8b, 3)),
    Q(E(0x03, 0x8c, 2), E(0x06, 0x8c, 2), E(0x0a, 0x8c, 2), E(0x0f, 0x8c, 2)),
    Q(E(0x18, 0x8c, 2), E(0x1f, 0x8c, 2), E(0x29, 0x8c, 2), E(0x38, 0x8c, 3)))
  const ROW_98 := R(
    Q(E(0x03, 0x8d, 2), E(0x06, 0x8d, 2), E(0x0a, 0x8d, 2), E(0x0f, 0x8d, 2)),
    Q(E(0x18, 0x8d, 2), E(0x1f, 0x8d, 2), E(0x29, 0x8d, 2), E(0x38, 0x8d, 3)),
    Q(E(0x03, 0x8f, 2), E(0x06, 0x8f, 2), E(0x0a, 0x8f, 2), E(0x0f, 0x8f, 2)),
    Q(E(0x18, 0x8f, 2), E(0x1f, 0x8f, 2), E(0x29, 0x8f, 2), E(0x38, 0x8f, 3)))
  const ROW_99 := R(
    Q(E(0x9d, 0x00, 0), E(0x9e, 0x00, 0), E(0xa0, 0x00, 0), E(0xa1, 0x00, 0)),
    Q(E(0xa4, 0x00, 0), E(0xa5, 0x00, 0), E(0xa7, 0x00, 0), E(0xa8, 0x00, 0)),
    Q(E(0xac, 0x00, 0), E(0xad, 0x00, 0), E(0xaf, 0x00, 0), E(0xb1, 0x00, 0)),
    Q(E(0xb6, 0x00, 0), E(0xb9, 0x00, 0), E(0xbf, 0x00, 0), E(0xcf, 0x00, 0)))
  const ROW_9a := R(
    Q(E(0x00, 0x93, 2), E(0x00, 0x95, 2), E(0x00, 0x96, 2), E(0x00, 0x97, 2)),
    Q(E(0x00, 0x98, 2), E(0x00, 0x9b, 2), E(0x00, 0x9d, 2), E(0x00, 0x9e, 2)),
    Q(E(0x00, 0xa5, 2), E(0x00, 0xa6, 2), E(0x00, 0xa8, 2), E(0x00, 0xae, 2)),
    Q(E(0x00, 0xaf, 2), E(0x00, 0xb4, 2), E(0x00, 0xb6, 2), E(0x00, 0xb7, 2)))
  const ROW_9b := R(
    Q(E(0x01, 0x93, 2), E(0x16, 0x93, 3), E(0x01, 0x95, 2), E(0x16, 0x95, 3)),
    Q(E(0x01, 0x96, 2), E(0x16, 0x96, 3), E(0x01, 0x97, 2), E(0x16, 0x97, 3)),
    Q(E(0x01, 0x98, 2), E(0x16, 0x98, 3), E(0x01, 0x9b, 2), E(0x16, 0x9b, 3)),
    Q(E(0x01, 0x9d, 2), E(0x16, 0x9d, 3), E(0x01, 0x9e, 2), E(0x16, 0x9e, 3)))
  const ROW_9c := R(
    Q(E(0x02, 0x93, 2), E(0x09, 0x93, 2), E(0x17, 0x93, 2), E(0x28, 0x93, 3)),
    Q(E(0x02, 0x95, 2), E(0x09, 0x95, 2), E(0x17, 0x95, 2), E(0x28, 0x95, 3)),
    Q(E(0x02, 0x96, 2), E(0x09, 0x96, 2), E(0x17, 0x96, 2), E(0x28, 0x96, 3)),
    Q(E(0x02, 0x97, 2), E(0x09, 0x97, 2), E(0x17, 0x97, 2), E(0x28, 0x97, 3)))
  const ROW_9d := R(
    Q(E(0x03, 0x93, 2), E(0x06, 0x93, 2), E(0x0a, 0x93, 2), E(0x0f, 0x93, 2)),
    Q(E(0x18, 0x93, 2), E(0x1f, 0x93, 2), E(0x29, 0x93, 2), E(0x38, 0x93, 3)),
    Q(E(0x03, 0x95, 2), E(0x06, 0x95, 2), E(0x0a, 0x95, 2), E(0x0f, 0x95, 2)),
    Q(E(0x18, 0x95, 2), E(0x1f, 0x95, 2), E(0x29, 0x95, 2), E(0x38, 0x95, 3)))
  const ROW_9e := R(
    Q(E(0x03, 0x96, 2), E(0x06, 0x96, 2), E(0x0a, 0x96, 2), E(0x0f, 0x96, 2)),
    Q(E(0x18, 0x96, 2), E(0x1f, 0x96, 2), E(0x29, 0x96, 2), E(0x38, 0x96, 3)),
    Q(E(0x03, 0x97, 2), E(0x06, 0x97, 2), E(0x0a, 0x97, 2), E(0x0f, 0x97, 2)),
    Q(E(0x18, 0x97, 2), E(0x1f, 0x97, 2), E(0x29, 0x97, 2), E(0x38, 0x97, 3)))
  const ROW_9f := R(
    Q(E(0x02, 0x98, 2), E(0x09, 0x98, 2), E(0x17, 0x98, 2), E(0x28, 0x98, 3)),
    Q(E(0x02, 0x9b, 2), E(0x09, 0x9b, 2), E(0x17, 0x9b, 2), E(0x28, 0x9b, 3)),
    Q(E(0x02, 0x9d, 2), E(0x09, 0x9d, 2), E(0x17, 0x9d, 2), E(0x28, 0x9d, 3)),
    Q(E(0x02, 0x9e, 2), E(0x09, 0x9e, 2), E(0x17, 0x9e, 2), E(0x28, 0x9e, 3)))
  const ROW_a0 := R(
    Q(E(0x03, 0x98, 2), E(0x06, 0x98, 2), E(0x0a, 0x98, 2), E(0x0f, 0x98, 2)),
    Q(E(0x18, 0x98, 2), E(0x1f, 0x98, 2), E(0x29, 0x98, 2), E(0x38, 0x98, 3)),
    Q(E(0x03, 0x9b, 2), E(0x06, 0x9b, 2), E(0x0a, 0x9b, 2), E(0x0f, 0x9b, 2)),
    Q(E(0x18, 0x9b, 2), E(0x1f, 0x9b, 2), E(0x29, 0x9b, 2), E(0x38, 0x9b, 3)))
  const ROW_a1 := R(
    Q(E(0x03, 0x9d, 2), E(0x06, 0x9d, 2), E(0x0a, 0x9d, 2), E(0x0f, 0x9d, 2)),
    Q(E(0x18, 0x9d, 2), E(0x1f, 0x9d, 2), E(0x29, 0x9d, 2), E(0x38, 0x9d, 3)),
    Q(E(0x03, 0x9e, 2), E(0x06, 0x9e, 2), E(0x0a, 0x9e, 2), E(0x0f, 0x9e, 2)),
    Q(E(0x18, 0x9e, 2), E(0x1f, 0x9e, 2), E(0x29, 0x9e, 2), E(0x38, 0x9e, 3)))
  const ROW_a2 := R(
    Q(E(0x01, 0xa5, 2), E(0x16, 0xa5, 3), E(0x01, 0xa6, 2), E(0x16, 0xa6, 3)),
    Q(E(0x01, 0xa8, 2), E(0x16, 0xa8, 3), E(0x01, 0xae, 2), E(0x16, 0xae, 3)),
    Q(E(0x01, 0xaf, 2), E(0x16, 0xaf, 3), E(0x01, 0xb4, 2), E(0x16, 0xb4, 3)),
    Q(E(0x01, 0xb6, 2), E(0x16, 0xb6, 3), E(0x01, 0xb7, 2), E(0x16, 0xb7, 3)))
  const ROW_a3 := R(
    Q(E(0x02, 0xa5, 2), E(0x09, 0xa5, 2), E(0x17, 0xa5, 2), E(0x28, 0xa5, 3)),
    Q(E(0x02, 0xa6, 2), E(0x09, 0xa6, 2), E(0x17, 0xa6, 2), E(0x28, 0xa6, 3)),
    Q(E(0x02, 0xa8, 2), E(0x09, 0xa8, 2), E(0x17, 0xa8, 2), E(0x28, 0xa8, 3)),
    Q(E(0x02, 0xae, 2), E(0x09, 0xae, 2), E(0x17, 0xae, 2), E(0x28, 0xae, 3)))
  const ROW_a4 := R(
    Q(E(0x03, 0xa5, 2), E(0x06, 0xa5, 2), E(0x0a, 0xa5, 2), E(0x0f, 0xa5, 2)),
    Q(E(0x18, 0xa5, 2), E(0x1f, 0xa5, 2), E(0x29, 0xa5, 2), E(0x38, 0xa5, 3)),
    Q(E(0x03, 0xa6, 2), E(0x06, 0xa6, 2), E(0x0a, 0xa6, 2), E(0x0f, 0xa6, 2)),
    Q(E(0x18, 0xa6, 2), E(0x1f, 0xa6, 2), E(0x29, 0xa6, 2), E(0x38, 0xa6, 3)))
  const ROW_a5 := R(
    Q(E(0x03, 0xa8, 2), E(0x06, 0xa8, 2), E(0x0a, 0xa8, 2), E(0x0f, 0xa8, 2)),
    Q(E(0x18, 0xa8, 2), E(0x1f, 0xa8, 2), E(0x29, 0xa8, 2), E(0x38, 0xa8, 3)),
    Q(E(0x03, 0xae, 2), E(0x06, 0xae, 2), E(0x0a, 0xae, 2), E(0x0f, 0xae, 2)),
    Q(E(0x18, 0xae, 2), E(0x1f, 0xae, 2), E(0x29, 0xae, 2), E(0x38, 0xae, 3)))
  const ROW_a6 := R(
    Q(E(0x02, 0xaf, 2), E(0x09, 0xaf, 2), E(0x17, 0xaf, 2), E(0x28, 0xaf, 3)),
    Q(E(0x02, 0xb4, 2), E(0x09, 0xb4, 2), E(0x17, 0xb4, 2), E(0x28, 0xb4, 3)),
    Q(E(0x02, 0xb6, 2), E(0x09, 0xb6, 2), E(0x17, 0xb6, 2), E(0x28, 0xb6, 3)),
    Q(E(0x02, 0xb7, 2), E(0x09, 0xb7, 2), E(0x17, 0xb7, 2), E(0x28, 0xb7, 3)))
  const ROW_a7 := R(
    Q(E(0x03, 0xaf, 2), E(0x06, 0xaf, 2), E(0x0a, 0xaf, 2), E(0x0f, 0xaf, 2)),
    Q(E(0x18, 0xaf, 2), E(0x1f, 0xaf, 2), E(0x29, 0xaf, 2), E(0x38, 0xaf, 3)),
    Q(E(0x03, 0xb4, 2), E(0x06, 0xb4, 2), E(0x0a, 0xb4, 2), E(0x0f, 0xb4, 2)),
    Q(E(0x18, 0xb4, 2), E(0x1f, 0xb4, 2), E(0x29, 0xb4, 2), E(0x38, 0xb4, 3)))
  const ROW_a8 := R(
    Q(E(0x03, 0xb6, 2), E(0x06, 0xb6, 2), E(0x0a, 0xb6, 2), E(0x0f, 0xb6, 2)),
    Q(E(0x18, 0xb6, 2), E(0x1f, 0xb6, 2), E(0x29, 0xb6, 2), E(0x38, 0xb6, 3)),
    Q(E(0x03, 0xb7, 2), E(0x06, 0xb7, 2), E(0x0a, 0xb7, 2), E(0x0f, 0xb7, 2)),
    Q(E(0x18, 0xb7, 2), E(0x1f, 0xb7, 2), E(0x29, 0xb7, 2), E(0x38, 0xb7, 3)))
  const ROW_a9 := R(
    Q(E(0x00, 0xbc, 2), E(0x00, 0xbf, 2), E(0x00, 0xc5, 2), E(0x00, 0xe7, 2)),
    Q(E(0x00, 0xef, 2), E(0xb0, 0x00, 0), E(0xb2, 0x00, 0), E(0xb3, 0x00, 0)),
    Q(E(0xb7, 0x00, 0), E(0xb8, 0x00, 0), E(0xba, 0x00, 0), E(0xbb, 0x00, 0)),
    Q(E(0xc0, 0x00, 0), E(0xc7, 0x00, 0), E(0xd0, 0x00, 0), E(0xdf, 0x00, 0)))
  const ROW_aa := R(
    Q(E(0x01, 0xbc, 2), E(0x16, 0xbc, 3), E(0x01, 0xbf, 2), E(0x16, 0xbf, 3)),
    Q(E(0x01, 0xc5, 2), E(0x16, 0xc5, 3), E(0x01, 0xe7, 2), E(0x16, 0xe7, 3)),
    Q(E(0x01, 0xef, 2), E(0x16, 0xef, 3), E(0x00, 0x09, 2), E(0x00, 0x8e, 2)),
    Q(E(0x00, 0x90, 2), E(0x00, 0x91, 2), E(0x00, 0x94, 2), E(0x00, 0x9f, 2)))
  const ROW_ab := R(
    Q(E(0x02, 0xbc, 2), E(0x09, 0xbc, 2), E(0x17, 0xbc, 2), E(0x28, 0xbc, 3)),
    Q(E(0x02, 0xbf, 2), E(0x09, 0xbf, 2), E(0x17, 0xbf, 2), E(0x28, 0xbf, 3)),
    Q(E(0x02, 0xc5, 2), E(0x09, 0xc5, 2), E(0x17, 0xc5, 2), E(0x28, 0xc5, 3)),
    Q(E(0x02, 0xe7, 2), E(0x09, 0xe7, 2), E(0x17, 0xe7, 2), E(0x28, 0xe7, 3)))
  const ROW_ac := R(
    Q(E(0x03, 0xbc, 2), E(0x06, 0xbc, 2), E(0x0a, 0xbc, 2), E(0x0f, 0xbc, 2)),
    Q(E(0x18, 0xbc, 2), E(0x1f, 0xbc, 2), E(0x29, 0xbc, 2), E(0x38, 0xbc, 3)),
    Q(E(0x03, 0xbf, 2), E(0x06, 0xbf, 2), E(0x0a, 0xbf, 2), E(0x0f, 0xbf, 2)),
    Q(E(0x18, 0xbf, 2), E(0x1f, 0xbf, 2), E(0x29, 0xbf, 2), E(0x38, 0xbf, 3)))
  const ROW_ad := R(
    Q(E(0x03, 0xc5, 2), E(0x06, 0xc5, 2), E(0x0a, 0xc5, 2), E(0x0f, 0xc5, 2)),
    Q(E(0x18, 0xc5, 2), E(0x1f, 0xc5, 2), E(0x29, 0xc5, 2), E(0x38, 0xc5, 3)),
    Q(E(0x03, 0xe7, 2), E(0x06, 0xe7, 2), E(0x0a, 0xe7, 2), E(0x0f, 0xe7, 2)),
    Q(E(0x18, 0xe7, 2), E(0x1f, 0xe7, 2), E(0x29, 0xe7, 2), E(0x38, 0xe7, 3)))
  const ROW_ae := R(
    Q(E(0x02, 0xef, 2), E(0x09, 0xef, 2), E(0x17, 0xef, 2), E(0x28, 0xef, 3)),
    Q(E(0x01, 0x09, 2), E(0x16, 0x09, 3), E(0x01, 0x8e, 2), E(0x16, 0x8e, 3)),
    Q(E(0x01, 0x90, 2), E(0x16, 0x90, 3), E(0x01, 0x91, 2), E(0x16, 0x91, 3)),
    Q(E(0x01, 0x94, 2), E(0x16, 0x94, 3), E(0x01, 0x9f, 2), E(0x16, 0x9f, 3)))
  const ROW_af := R(
    Q(E(0x03, 0xef, 2), E(0x06, 0xef, 2), E(0x0a, 0xef, 2), E(0x0f, 0xef, 2)),
    Q(E(0x18, 0xef, 2), E(0x1f, 0xef, 2), E(0x29, 0xef, 2), E(0x38, 0xef, 3)),
    Q(E(0x02, 0x09, 2), E(0x09, 0x09, 2), E(0x17, 0x09, 2), E(0x28, 0x09, 3)),
    Q(E(0x02, 0x8e, 2), E(0x09, 0x8e, 2), E(0x17, 0x8e, 2), E(0x28, 0x8e, 3)))
  const ROW_b0 := R(
    Q(E(0x03, 0x09, 2), E(0x06, 0x09, 2), E(0x0a, 0x09, 2), E(0x0f, 0x09, 2)),
    Q(E(0x18, 0x09, 2), E(0x1f, 0x09, 2), E(0x29, 0x09, 2), E(0x38, 0x09, 3)),
    Q(E(0x03, 0x8e, 2), E(0x06, 0x8e, 2), E(0x0a, 0x8e, 2), E(0x0f, 0x8e, 2)),
    Q(E(0x18, 0x8e, 2), E(0x1f, 0x8e, 2), E(0x29, 0x8e, 2), E(0x38, 0x8e, 3)))
  const ROW_b1 := R(
    Q(E(0x02, 0x90, 2), E(0x09, 0x90, 2), E(0x17, 0x90, 2), E(0x28, 0x90, 3)),
    Q(E(0x02, 0x91, 2), E(0x09, 0x91, 2), E(0x17, 0x91, 2), E(0x28, 0x91, 3)),
    Q(E(0x02, 0x94, 2), E(0x09, 0x94, 2), E(0x17, 0x94, 2), E(0x28, 0x94, 3)),
    Q(E(0x02, 0x9f, 2), E(0x09, 0x9f, 2), E(0x17, 0x9f, 2), E(0x28, 0x9f, 3)))
  const ROW_b2 := R(
    Q(E(0x03, 0x90, 2), E(0x06, 0x90, 2), E(0x0a, 0x90, 2), E(0x0f, 0x90, 2)),
    Q(E(0x18, 0x90, 2), E(0x1f, 0x90, 2), E(0x29, 0x90, 2), E(0x38, 0x90, 3)),
    Q(E(0x03, 0x91, 2), E(0x06, 0x91, 2), E(0x0a, 0x91, 2), E(0x0f, 0x91, 2)),
    Q(E(0x18, 0x91, 2), E(0x1f, 0x91, 2), E(0x29, 0x91, 2), E(0x38, 0x91, 3)))
  const ROW_b3 := R(
    Q(E(0x03, 0x94, 2), E(0x06, 0x94, 2), E(0x0a, 0x94, 2), E(0x0f, 0x94, 2)),
    Q(E(0x18, 0x94, 2), E(0x1f, 0x94, 2), E(0x29, 0x94, 2), E(0x38, 0x94, 3)),
    Q(E(0x03, 0x9f, 2), E(0x06, 0x9f, 2), E(0x0a, 0x9f, 2), E(0x0f, 0x9f, 2)),
    Q(E(0x18, 0x9f, 2), E(0x1f, 0x9f, 2), E(0x29, 0x9f, 2), E(0x38, 0x9f, 3)))
  const ROW_b4 := R(
    Q(E(0x00, 0xab, 2), E(0x00, 0xce, 2), E(0x00, 0xd7, 2), E(0x00, 0xe1, 2)),
    Q(E(0x00, 0xec, 2), E(0x00, 0xed, 2), E(0xbc, 0x00, 0), E(0xbd, 0x00, 0)),
    Q(E(0xc1, 0x00, 0), E(0xc4, 0x00, 0), E(0xc8, 0x00, 0), E(0xcb, 0x00, 0)),
    Q(E(0xd1, 0x00, 0), E(0xd8, 0x00, 0), E(0xe0, 0x00, 0), E(0xee, 0x00, 0)))
  const ROW_b5 := R(
    Q(E(0x01, 0xab, 2), E(0x16, 0xab, 3), E(0x01, 0xce, 2), E(0x16, 0xce, 3)),
    Q(E(0x01, 0xd7, 2), E(0x16, 0xd7, 3), E(0x01, 0xe1, 2), E(0x16, 0xe1, 3)),
    Q(E(0x01, 0xec, 2), E(0x16, 0xec, 3), E(0x01, 0xed, 2), E(0x16, 0xed, 3)),
    Q(E(0x00, 0xc7, 2), E(0x00, 0xcf, 2), E(0x00, 0xea, 2), E(0x00, 0xeb, 2)))
  const ROW_b6 := R(
    Q(E(0x02, 0xab, 2), E(0x09, 0xab, 2), E(0x17, 0xab, 2), E(0x28, 0xab, 3)),
    Q(E(0x02, 0xce, 2), E(0x09, 0xce, 2), E(0x17, 0xce, 2), E(0x28, 0xce, 3)),
    Q(E(0x02, 0xd7, 2), E(0x09, 0xd7, 2), E(0x17, 0xd7, 2), E(0x28, 0xd7, 3)),
    Q(E(0x02, 0xe1, 2), E(0x09, 0xe1, 2), E(0x17, 0xe1, 2), E(0x28, 0xe1, 3)))
  const ROW_b7 := R(
    Q(E(0x03, 0xab, 2), E(0x06, 0xab, 2), E(0x0a, 0xab, 2), E(0x0f, 0xab, 2)),
    Q(E(0x18, 0xab, 2), E(0x1f, 0xab, 2), E(0x29, 0xab, 2), E(0x38, 0xab, 3)),
    Q(E(0x03, 0xce, 2), E(0x06, 0xce, 2), E(0x0a, 0xce, 2), E(0x0f, 0xce, 2)),
    Q(E(0x18, 0xce, 2), E(0x1f, 0xce, 2), E(0x29, 0xce, 2), E(0x38, 0xce, 3)))
  const ROW_b8 := R(
    Q(E(0x03, 0xd7, 2), E(0x06, 0xd7, 2), E(0x0a, 0xd7, 2), E(0x0f, 0xd7, 2)),
    Q(E(0x18, 0xd7, 2), E(0x1f, 0xd7, 2), E(0x29, 0xd7, 2), E(0x38, 0xd7, 3)),
    Q(E(0x03, 0xe1, 2), E(0x06, 0xe1, 2), E(0x0a, 0xe1, 2), E(0x0f, 0xe1, 2)),
    Q(E(0x18, 0xe1, 2), E(0x1f, 0xe1, 2), E(0x29, 0xe1, 2), E(0x38, 0xe1, 3)))
  const ROW_b9 := R(
    Q(E(0x02, 0xec, 2), E(0x09, 0xec, 2), E(0x17, 0xec, 2), E(0x28, 0xec, 3)),
    Q(E(0x02, 0xed, 2), E(0x09, 0xed, 2), E(0x17, 0xed, 2), E(0x28, 0xed, 3)),
    Q(E(0x01, 0xc7, 2), E(0x16, 0xc7, 3), E(0x01, 0xcf, 2), E(0x16, 0xcf, 3)),
    Q(E(0x01, 0xea, 2), E(0x16, 0xea, 3), E(0x01, 0xeb, 2), E(0x16, 0xeb, 3)))
  const ROW_ba := R(
    Q(E(0x03, 0xec, 2), E(0x06, 0xec, 2), E(0x0a, 0xec, 2), E(0x0f, 0xec, 2)),
    Q(E(0x18, 0xec, 2), E(0x1f, 0xec, 2), E(0x29, 0xec, 2), E(0x38, 0xec, 3)),
    Q(E(0x03, 0xed, 2), E(0x06, 0xed, 2), E(0x0a, 0xed, 2), E(0x0f, 0xed, 2)),
    Q(E(0x18, 0xed, 2), E(0x1f, 0xed, 2), E(0x29, 0xed, 2), E(0x38, 0xed, 3)))
  const ROW_bb := R(
    Q(E(0x02, 0xc7, 2), E(0x09, 0xc7, 2), E(0x17, 0xc7, 2), E(0x28, 0xc7, 3)),
    Q(E(0x02, 0xcf, 2), E(0x09, 0xcf, 2), E(0x17, 0xcf, 2), E(0x28, 0xcf, 3)),
    Q(E(0x02, 0xea, 2), E(0x09, 0xea, 2), E(0x17, 0xea, 2), E(0x28, 0xea, 3)),
    Q(E(0x02, 0xeb, 2), E(0x09, 0xeb, 2), E(0x17, 0xeb, 2), E(0x28, 0xeb, 3)))
  const ROW_bc := R(
    Q(E(0x03, 0xc7, 2), E(0x06, 0xc7, 2), E(0x0a, 0xc7, 2), E(0x0f, 0xc7, 2)),
    Q(E(0x18, 0xc7, 2), E(0x1f, 0xc7, 2), E(0x29, 0xc7, 2), E(0x38, 0xc7, 3)),
    Q(E(0x03, 0xcf, 2), E(0x06, 0xcf, 2), E(0x0a, 0xcf, 2), E(0x0f, 0xcf, 2)),
    Q(E(0x18, 0xcf, 2), E(0x1f, 0xcf, 2), E(0x29, 0xcf, 2), E(0x38, 0xcf, 3)))
  const ROW_bd := R(
    Q(E(0x03, 0xea, 2), E(0x06, 0xea, 2), E(0x0a, 0xea, 2), E(0x0f, 0xea, 2)),
    Q(E(0x18, 0xea, 2), E(0x1f, 0xea, 2), E(0x29, 0xea, 2), E(0x38, 0xea, 3)),
    Q(E(0x03, 0xeb, 2), E(0x06, 0xeb, 2), E(0x0a, 0xeb, 2), E(0x0f, 0xeb, 2)),
    Q(E(0x18, 0xeb, 2), E(0x1f, 0xeb, 2), E(0x29, 0xeb, 2), E(0x38, 0xeb, 3)))
  const ROW_be := R(
    Q(E(0xc2, 0x00, 0), E(0xc3, 0x00, 0), E(0xc5, 0x00, 0), E(0xc6, 0x00, 0)),
    Q(E(0xc9, 0x00, 0), E(0xca, 0x00, 0), E(0xcc, 0x00, 0), E(0xcd, 0x00, 0)),
    Q(E(0xd2, 0x00, 0), E(0xd5, 0x00, 0), E(0xd9, 0x00, 0), E(0xdc, 0x00, 0)),
    Q(E(0xe1, 0x00, 0), E(0xe7, 0x00, 0), E(0xef, 0x00, 0), E(0xf6, 0x00, 0)))
  const ROW_bf := R(
    Q(E(0x00, 0xc0, 2), E(0x00, 0xc1, 2), E(0x00, 0xc8, 2), E(0x00, 0xc9, 2)),
    Q(E(0x00, 0xca, 2), E(0x00, 0xcd, 2), E(0x00, 0xd2, 2), E(0x00, 0xd5, 2)),
    Q(E(0x00, 0xda, 2), E(0x00, 0xdb, 2), E(0x00, 0xee, 2), E(0x00, 0xf0, 2)),
    Q(E(0x00, 0xf2, 2), E(0x00, 0xf3, 2), E(0x00, 0xff, 2), E(0xce, 0x00, 0)))
  const ROW_c0 := R(
    Q(E(0x01, 0xc0, 2), E(0x16, 0xc0, 3), E(0x01, 0xc1, 2), E(0x16, 0xc1, 3)),
    Q(E(0x01, 0xc8, 2), E(0x16, 0xc8, 3), E(0x01, 0xc9, 2), E(0x16, 0xc9, 3)),
    Q(E(0x01, 0xca, 2), E(0x16, 0xca, 3), E(0x01, 0xcd, 2), E(0x16, 0xcd, 3)),
    Q(E(0x01, 0xd2, 2), E(0x16, 0xd2, 3), E(0x01, 0xd5, 2), E(0x16, 0xd5, 3)))
  const ROW_c1 := R(
    Q(E(0x02, 0xc0, 2), E(0x09, 0xc0, 2), E(0x17, 0xc0, 2), E(0x28, 0xc0, 3)),
    Q(E(0x02, 0xc1, 2), E(0x09, 0xc1, 2), E(0x17, 0xc1, 2), E(0x28, 0xc1, 3)),
    Q(E(0x02, 0xc8, 2), E(0x09, 0xc8, 2), E(0x17, 0xc8, 2), E(0x28, 0xc8, 3)),
    Q(E(0x02, 0xc9, 2), E(0x09, 0xc9, 2), E(0x17, 0xc9, 2), E(0x28, 0xc9, 3)))
  const ROW_c2 := R(
    Q(E(0x03, 0xc0, 2), E(0x06, 0xc0, 2), E(0x0a, 0xc0, 2), E(0x0f, 0xc0, 2)),
    Q(E(0x18, 0xc0, 2), E(0x1f, 0xc0, 2), E(0x29, 0xc0, 2), E(0x38, 0xc0, 3)),
    Q(E(0x03, 0xc1, 2), E(0x06, 0xc1, 2), E(0x0a, 0xc1, 2), E(0x0f, 0xc1, 2)),
    Q(E(0x18, 0xc1, 2), E(0x1f, 0xc1, 2), E(0x29, 0xc1, 2), E(0x38, 0xc1, 3)))
  const ROW_c3 := R(
    Q(E(0x03, 0xc8, 2), E(0x06, 0xc8, 2), E(0x0a, 0xc8, 2), E(0x0f, 0xc8, 2)),
    Q(E(0x18, 0xc8, 2), E(0x1f, 0xc8, 2), E(0x29, 0xc8, 2), E(0x38, 0xc8, 3)),
    Q(E(0x03, 0xc9, 2), E(0x06, 0xc9, 2), E(0x0a, 0xc9, 2), E(0x0f, 0xc9, 2)),
    Q(E(0x18, 0xc9, 2), E(0x1f, 0xc9, 2), E(0x29, 0xc9, 2), E(0x38, 0xc9, 3)))
  const ROW_c4 := R(
    Q(E(0x02, 0xca, 2), E(0x09, 0xca, 2), E(0x17, 0xca, 2), E(0x28, 0xca, 3)),
    Q(E(0x02, 0xcd, 2), E(0x09, 0xcd, 2), E(0x17, 0xcd, 2), E(0x28, 0xcd, 3)),
    Q(E(0x02, 0xd2, 2), E(0x09, 0xd2, 2), E(0x17, 0xd2, 2), E(0x28, 0xd2, 3)),
    Q(E(0x02, 0xd5, 2), E(0x09, 0xd5, 2), E(0x17, 0xd5, 2), E(0x28, 0xd5, 3)))
  const ROW_c5 := R(
    Q(E(0x03, 0xca, 2), E(0x06, 0xca, 2), E(0x0a, 0xca, 2), E(0x0f, 0xca, 2)),
    Q(E(0x18, 0xca, 2), E(0x1f, 0xca, 2), E(0x29, 0xca, 2), E(0x38, 0xca, 3)),
    Q(E(0x03, 0xcd, 2), E(0x06, 0xcd, 2), E(0x0a, 0xcd, 2), E(0x0f, 0xcd, 2)),
    Q(E(0x18, 0xcd, 2), E(0x1f, 0xcd, 2), E(0x29, 0xcd, 2), E(0x38, 0xcd, 3)))
  const ROW_c6 := R(
    Q(E(0x03, 0xd2, 2), E(0x06, 0xd2, 2), E(0x0a, 0xd2, 2), E(0x0f, 0xd2, 2)),
    Q(E(0x18, 0xd2, 2), E(0x1f, 0xd2, 2), E(0x29, 0xd2, 2), E(0x38, 0xd2, 3)),
    Q(E(0x03, 0xd5, 2), E(0x06, 0xd5, 2), E(0x0a, 0xd5, 2), E(0x0f, 0xd5, 2)),
    Q(E(0x18, 0xd5, 2), E(0x1f, 0xd5, 2), E(0x29, 0xd5, 2), E(0x38, 0xd5, 3)))
  const ROW_c7 := R(
    Q(E(0x01, 0xda, 2), E(0x16, 0xda, 3), E(0x01, 0xdb, 2), E(0x16, 0xdb, 3)),
    Q(E(0x01, 0xee, 2), E(0x16, 0xee, 3), E(0x01, 0xf0, 2), E(0x16, 0xf0, 3)),
    Q(E(0x01, 0xf2, 2), E(0x16, 0xf2, 3), E(0x01, 0xf3, 2), E(0x16, 0xf3, 3)),
    Q(E(0x01, 0xff, 2), E(0x16, 0xff, 3), E(0x00, 0xcb, 2), E(0x00, 0xcc, 2)))
  const ROW_c8 := R(
    Q(E(0x02, 0xda, 2), E(0x09, 0xda, 2), E(0x17, 0xda, 2), E(0x28, 0xda, 3)),
    Q(E(0x02, 0xdb, 2), E(0x09, 0xdb, 2), E(0x17, 0xdb, 2), E(0x28, 0xdb, 3)),
    Q(E(0x02, 0xee, 2), E(0x09, 0xee, 2), E(0x17, 0xee, 2), E(0x28, 0xee, 3)),
    Q(E(0x02, 0xf0, 2), E(0x09, 0xf0, 2), E(0x17, 0xf0, 2), E(0x28, 0xf0, 3)))
  const ROW_c9 := R(
    Q(E(0x03, 0xda, 2), E(0x06, 0xda, 2), E(0x0a, 0xda, 2), E(0x0f, 0xda, 2)),
    Q(E(0x18, 0xda, 2), E(0x1f, 0xda, 2), E(0x29, 0xda, 2), E(0x38, 0xda, 3)),
    Q(E(0x03, 0xdb, 2), E(0x06, 0xdb, 2), E(0x0a, 0xdb, 2), E(0x0f, 0xdb, 2)),
    Q(E(0x18, 0xdb, 2), E(0x1f, 0xdb, 2), E(0x29, 0xdb, 2), E(0x38, 0xdb, 3)))
  const ROW_ca := R(
    Q(E(0x03, 0xee, 2), E(0x06, 0xee, 2), E(0x0a, 0xee, 2), E(0x0f, 0xee, 2)),
    Q(E(0x18, 0xee, 2), E(0x1f, 0xee, 2), E(0x29, 0xee, 2), E(0x38, 0xee, 3)),
    Q(E(0x03, 0xf0, 2), E(0x06, 0xf0, 2), E(0x0a, 0xf0, 2), E(0x0f, 0xf0, 2)),
    Q(E(0x18, 0xf0, 2), E(0x1f, 0xf0, 2), E(0x29, 0xf0, 2), E(0x38, 0xf0, 3)))
  const ROW_cb := R(
    Q(E(0x02, 0xf2, 2), E(0x09, 0xf2, 2), E(0x17, 0xf2, 2), E(0x28, 0xf2, 3)),
    Q(E(0x02, 0xf3, 2), E(0x09, 0xf3, 2), E(0x17, 0xf3, 2), E(0x28, 0xf3, 3)),
    Q(E(0x02, 0xff, 2), E(0x09, 0xff, 2), E(0x17, 0xff, 2), E(0x28, 0xff, 3)),
    Q(E(0x01, 0xcb, 2), E(0x16, 0xcb, 3), E(0x01, 0xcc, 2), E(0x16, 0xcc, 3)))
  const ROW_cc := R(
    Q(E(0x03, 0xf2, 2), E(0x06, 0xf2, 2), E(0x0a, 0xf2, 2), E(0x0f, 0xf2, 2)),
    Q(E(0x18, 0xf2, 2), E(0x1f, 0xf2, 2), E(0x29, 0xf2, 2), E(0x38, 0xf2, 3)),
    Q(E(0x03, 0xf3, 2), E(0x06, 0xf3, 2), E(0x0a, 0xf3, 2), E(0x0f, 0xf3, 2)),
    Q(E(0x18, 0xf3, 2), E(0x1f, 0xf3, 2), E(0x29, 0xf3, 2), E(0x38, 0xf3, 3)))
  const ROW_cd := R(
    Q(E(0x03, 0xff, 2), E(0x06, 0xff, 2), E(0x0a, 0xff, 2), E(0x0f, 0xff, 2)),
    Q(E(0x18, 0xff, 2), E(0x1f, 0xff, 2), E(0x29, 0xff, 2), E(0x38, 0xff, 3)),
    Q(E(0x02, 0xcb, 2), E(0x09, 0xcb, 2), E(0x17, 0xcb, 2), E(0x28, 0xcb, 3)),
    Q(E(0x02, 0xcc, 2), E(0x09, 0xcc, 2), E(0x17, 0xcc, 2), E(0x28, 0xcc, 3)))
  const ROW_ce := R(
    Q(E(0x03, 0xcb, 2), E(0x06, 0xcb, 2), E(0x0a, 0xcb, 2), E(0x0f, 0xcb, 2)),
    Q(E(0x18, 0xcb, 2), E(0x1f, 0xcb, 2), E(0x29, 0xcb, 2), E(0x38, 0xcb, 3)),
    Q(E(0x03, 0xcc, 2), E(0x06, 0xcc, 2), E(0x0a, 0xcc, 2), E(0x0f, 0xcc, 2)),
    Q(E(0x18, 0xcc, 2), E(0x1f, 0xcc, 2), E(0x29, 0xcc, 2), E(0x38, 0xcc, 3)))
  const ROW_cf := R(
    Q(E(0xd3, 0x00, 0), E(0xd4, 0x00, 0), E(0xd6, 0x00, 0), E(0xd7, 0x00, 0)),
    Q(E(0xda, 0x00, 0), E(0xdb, 0x00, 0), E(0xdd, 0x00, 0), E(0xde, 0x00, 0)),
    Q(E(0xe2, 0x00, 0), E(0xe4, 0x00, 0), E(0xe8, 0x00, 0), E(0xeb, 0x00, 0)),
    Q(E(0xf0, 0x00, 0), E(0xf3, 0x00, 0), E(0xf7, 0x00, 0), E(0xfa, 0x00, 0)))
  const ROW_d0 := R(
    Q(E(0x00, 0xd3, 2), E(0x00, 0xd4, 2), E(0x00, 0xd6, 2), E(0x00, 0xdd, 2)),
    Q(E(0x00, 0xde, 2), E(0x00, 0xdf, 2), E(0x00, 0xf1, 2), E(0x00, 0xf4, 2)),
    Q(E(0x00, 0xf5, 2), E(0x00, 0xf6, 2), E(0x00, 0xf7, 2), E(0x00, 0xf8, 2)),
    Q(E(0x00, 0xfa, 2), E(0x00, 0xfb, 2), E(0x00, 0xfc, 2), E(0x00, 0xfd, 2)))
  const ROW_d1 := R(
    Q(E(0x01, 0xd3, 2), E(0x16, 0xd3, 3), E(0x01, 0xd4, 2), E(0x16, 0xd4, 3)),
    Q(E(0x01, 0xd6, 2), E(0x16, 0xd6, 3), E(0x01, 0xdd, 2), E(0x16, 0xdd, 3)),
    Q(E(0x01, 0xde, 2), E(0x16, 0xde, 3), E(0x01, 0xdf, 2), E(0x16, 0xdf, 3)),
    Q(E(0x01, 0xf1, 2), E(0x16, 0xf1, 3), E(0x01, 0xf4, 2), E(0x16, 0xf4, 3)))
  const ROW_d2 := R(
    Q(E(0x02, 0xd3, 2), E(0x09, 0xd3, 2), E(0x17, 0xd3, 2), E(0x28, 0xd3, 3)),
    Q(E(0x02, 0xd4, 2), E(0x09, 0xd4, 2), E(0x17, 0xd4, 2), E(0x28, 0xd4, 3)),
    Q(E(0x02, 0xd6, 2), E(0x09, 0xd6, 2), E(0x17, 0xd6, 2), E(0x28, 0xd6, 3)),
    Q(E(0x02, 0xdd, 2), E(0x09, 0xdd, 2), E(0x17, 0xdd, 2), E(0x28, 0xdd, 3)))
  const ROW_d3 := R(
    Q(E(0x03, 0xd3, 2), E(0x06, 0xd3, 2), E(0x0a, 0xd3, 2), E(0x0f, 0xd3, 2)),
    Q(E(0x18, 0xd3, 2), E(0x1f, 0xd3, 2), E(0x29, 0xd3, 2), E(0x38, 0xd3, 3)),
    Q(E(0x03, 0xd4, 2), E(0x06, 0xd4, 2), E(0x0a, 0xd4, 2), E(0x0f, 0xd4, 2)),
    Q(E(0x18, 0xd4, 2), E(0x1f, 0xd4, 2), E(0x29, 0xd4, 2), E(0x38, 0xd4, 3)))
  const ROW_d4 := R(
    Q(E(0x03, 0xd6, 2), E(0x06, 0xd6, 2), E(0x0a, 0xd6, 2), E(0x0f, 0xd6, 2)),
    Q(E(0x18, 0xd6, 2), E(0x1f, 0xd6, 2), E(0x29, 0xd6, 2), E(0x38, 0xd6, 3)),
    Q(E(0x03, 0xdd, 2), E(0x06, 0xdd, 2), E(0x0a, 0xdd, 2), E(0x0f, 0xdd, 2)),
    Q(E(0x18, 0xdd, 2), E(0x1f, 0xdd, 2), E(0x29, 0xdd, 2), E(0x38, 0xdd, 3)))
  const ROW_d5 := R(
    Q(E(0x02, 0xde, 2), E(0x09, 0xde, 2), E(0x17, 0xde, 2), E(0x28, 0xde, 3)),
    Q(E(0x02, 0xdf, 2), E(0x09, 0xdf, 2), E(0x17, 0xdf, 2), E(0x28, 0xdf, 3)),
    Q(E(0x02, 0xf1, 2), E(0x09, 0xf1, 2), E(0x17, 0xf1, 2), E(0x28, 0xf1, 3)),
    Q(E(0x02, 0xf4, 2), E(0x09, 0xf4, 2), E(0x17, 0xf4, 2), E(0x28, 0xf4, 3)))
  const ROW_d6 := R(
    Q(E(0x03, 0xde, 2), E(0x06, 0xde, 2), E(0x0a, 0xde, 2), E(0x0f, 0xde, 2)),
    Q(E(0x18, 0xde, 2), E(0x1f, 0xde, 2), E(0x29, 0xde, 2), E(0x38, 0xde, 3)),
    Q(E(0x03, 0xdf, 2), E(0x06, 0xdf, 2), E(0x0a, 0xdf, 2), E(0x0f, 0xdf, 2)),
    Q(E(0x18, 0xdf, 2), E(0x1f, 0xdf, 2), E(0x29, 0xdf, 2), E(0x38, 0xdf, 3)))
  const ROW_d7 := R(
    Q(E(0x03, 0xf1, 2), E(0x06, 0xf1, 2), E(0x0a, 0xf1, 2), E(0x0f, 0xf1, 2)),
    Q(E(0x18, 0xf1, 2), E(0x1f, 0xf1, 2), E(0x29, 0xf1, 2), E(0x38, 0xf1, 3)),
    Q(E(0x03, 0xf4, 2), E(0x06, 0xf4, 2), E(0x0a, 0xf4, 2), E(0x0f, 0xf4, 2)),
    Q(E(0x18, 0xf4, 2), E(0x1f, 0xf4, 2), E(0x29, 0xf4, 2), E(0x38, 0xf4, 3)))
  const ROW_d8 := R(
    Q(E(0x01, 0xf5, 2), E(0x16, 0xf5, 3), E(0x01, 0xf6, 2), E(0x16, 0xf6, 3)),
    Q(E(0x01, 0xf7, 2), E(0x16, 0xf7, 3), E(0x01, 0xf8, 2), E(0x16, 0xf8, 3)),
    Q(E(0x01, 0xfa, 2), E(0x16, 0xfa, 3), E(0x01, 0xfb, 2), E(0x16, 0xfb, 3)),
    Q(E(0x01, 0xfc, 2), E(0x16, 0xfc, 3), E(0x01, 0xfd, 2), E(0x16, 0xfd, 3)))
  const ROW_d9 := R(
    Q(E(0x02, 0xf5, 2), E(0x09, 0xf5, 2), E(0x17, 0xf5, 2), E(0x28, 0xf5, 3)),
    Q(E(0x02, 0xf6, 2), E(0x09, 0xf6, 2), E(0x17, 0xf6, 2), E(0x28, 0xf6, 3)),
    Q(E(0x02, 0xf7, 2), E(0x09, 0xf7, 2), E(0x17, 0xf7, 2), E(0x28, 0xf7, 3)),
    Q(E(0x02, 0xf8, 2), E(0x09, 0xf8, 2), E(0x17, 0xf8, 2), E(0x28, 0xf8, 3)))
  const ROW_da := R(
    Q(E(0x03, 0xf5, 2), E(0x06, 0xf5, 2), E(0x0a, 0xf5, 2), E(0x0f, 0xf5, 2)),
    Q(E(0x18, 0xf5, 2), E(0x1f, 0xf5, 2), E(0x29, 0xf5, 2), E(0x38, 0xf5, 3)),
    Q(E(0x03, 0xf6, 2), E(0x06, 0xf6, 2), E(0x0a, 0xf6, 2), E(0x0f, 0xf6, 2)),
    Q(E(0x18, 0xf6, 2), E(0x1f, 0xf6, 2), E(0x29, 0xf6, 2), E(0x38, 0xf6, 3)))
  const ROW_db := R(
    Q(E(0x03, 0xf7, 2), E(0x06, 0xf7, 2), E(0x0a, 0xf7, 2), E(0x0f, 0xf7, 2)),
    Q(E(0x18, 0xf7, 2), E(0x1f, 0xf7, 2), E(0x29, 0xf7, 2), E(0x38, 0xf7, 3)),
    Q(E(0x03, 0xf8, 2), E(0x06, 0xf8, 2), E(0x0a, 0xf8, 2), E(0x0f, 0xf8, 2)),
    Q(E(0x18, 0xf8, 2), E(0x1f, 0xf8, 2), E(0x29, 0xf8, 2), E(0x38, 0xf8, 3)))
  const ROW_dc := R(
    Q(E(0x02, 0xfa, 2), E(0x09, 0xfa, 2), E(0x17, 0xfa, 2), E(0x28, 0xfa, 3)),
    Q(E(0x02, 0xfb, 2), E(0x09, 0xfb, 2), E(0x17, 0xfb, 2), E(0x28, 0xfb, 3)),
    Q(E(0x02, 0xfc, 2), E(0x09, 0xfc, 2), E(0x17, 0xfc, 2), E(0x28, 0xfc, 3)),
    Q(E(0x02, 0xfd, 2), E(0x09, 0xfd, 2), E(0x17, 0xfd, 2), E(0x28, 0xfd, 3)))
  const ROW_dd := R(
    Q(E(0x03, 0xfa, 2), E(0x06, 0xfa, 2), E(0x0a, 0xfa, 2), E(0x0f, 0xfa, 2)),
    Q(E(0x18, 0xfa, 2), E(0x1f, 0xfa, 2), E(0x29, 0xfa, 2), E(0x38, 0xfa, 3)),
    Q(E(0x03, 0xfb, 2), E(0x06, 0xfb, 2), E(0x0a, 0xfb, 2), E(0x0f, 0xfb, 2)),
    Q(E(0x18, 0xfb, 2), E(0x1f, 0xfb, 2), E(0x29, 0xfb, 2), E(0x38, 0xfb, 3)))
  const ROW_de := R(
    Q(E(0x03, 0xfc, 2), E(0x06, 0xfc, 2), E(0x0a, 0xfc, 2), E(0x0f, 0xfc, 2)),
    Q(E(0x18, 0xfc, 2), E(0x1f, 0xfc, 2), E(0x29, 0xfc, 2), E(0x38, 0xfc, 3)),
    Q(E(0x03, 0xfd, 2), E(0x06, 0xfd, 2), E(0x0a, 0xfd, 2), E(0x0f, 0xfd, 2)),
    Q(E(0x18, 0xfd, 2), E(0x1f, 0xfd, 2), E(0x29, 0xfd, 2), E(0x38, 0xfd, 3)))
  const ROW_df := R(
    Q(E(0x00, 0xfe, 2), E(0xe3, 0x00, 0), E(0xe5, 0x00, 0), E(0xe6, 0x00, 0)),
    Q(E(0xe9, 0x00, 0), E(0xea, 0x00, 0), E(0xec, 0x00, 0), E(0xed, 0x00, 0)),
    Q(E(0xf1, 0x00, 0), E(0xf2, 0x00, 0), E(0xf4, 0x00, 0), E(0xf5, 0x00, 0)),
    Q(E(0xf8, 0x00, 0), E(0xf9, 0x00, 0), E(0xfb, 0x00, 0), E(0xfc, 0x00, 0)))
  const ROW_e0 := R(
    Q(E(0x01, 0xfe, 2), E(0x16, 0xfe, 3), E(0x00, 0x02, 2), E(0x00, 0x03, 2)),
    Q(E(0x00, 0x04, 2), E(0x00, 0x05, 2), E(0x00, 0x06, 2), E(0x00, 0x07, 2)),
    Q(E(0x00, 0x08, 2), E(0x00, 0x0b, 2), E(0x00, 0x0c, 2), E(0x00, 0x0e, 2)),
    Q(E(0x00, 0x0f, 2), E(0x00, 0x10, 2), E(0x00, 0x11, 2), E(0x00, 0x12, 2)))
  const ROW_e1 := R(
    Q(E(0x02, 0xfe, 2), E(0x09, 0xfe, 2), E(0x17, 0xfe, 2), E(0x28, 0xfe, 3)),
    Q(E(0x01, 0x02, 2), E(0x16, 0x02, 3), E(0x01, 0x03, 2), E(0x16, 0x03, 3)),
    Q(E(0x01, 0x04, 2), E(0x16, 0x04, 3), E(0x01, 0x05, 2), E(0x16, 0x05, 3)),
    Q(E(0x01, 0x06, 2), E(0x16, 0x06, 3), E(0x01, 0x07, 2), E(0x16, 0x07, 3)))
  const ROW_e2 := R(
    Q(E(0x03, 0xfe, 2), E(0x06, 0xfe, 2), E(0x0a, 0xfe, 2), E(0x0f, 0xfe, 2)),
    Q(E(0x18, 0xfe, 2), E(0x1f, 0xfe, 2), E(0x29, 0xfe, 2), E(0x38, 0xfe, 3)),
    Q(E(0x02, 0x02, 2), E(0x09, 0x02, 2), E(0x17, 0x02, 2), E(0x28, 0x02, 3)),
    Q(E(0x02, 0x03, 2), E(0x09, 0x03, 2), E(0x17, 0x03, 2), E(0x28, 0x03, 3)))
  const ROW_e3 := R(
    Q(E(0x03, 0x02, 2), E(0x06, 0x02, 2), E(0x0a, 0x02, 2), E(0x0f, 0x02, 2)),
    Q(E(0x18, 0x02, 2), E(0x1f, 0x02, 2), E(0x29, 0x02, 2), E(0x38, 0x02, 3)),
    Q(E(0x03, 0x03, 2), E(0x06, 0x03, 2), E(0x0a, 0x03, 2), E(0x0f, 0x03, 2)),
    Q(E(0x18, 0x03, 2), E(0x1f, 0x03, 2), E(0x29, 0x03, 2), E(0x38, 0x03, 3)))
  const ROW_e4 := R(
    Q(E(0x02, 0x04, 2), E(0x09, 0x04, 2), E(0x17, 0x04, 2), E(0x28, 0x04, 3)),
    Q(E(0x02, 0x05, 2), E(0x09, 0x05, 2), E(0x17, 0x05, 2), E(0x28, 0x05, 3)),
    Q(E(0x02, 0x06, 2), E(0x09, 0x06, 2), E(0x17, 0x06, 2), E(0x28, 0x06, 3)),
    Q(E(0x02, 0x07, 2), E(0x09, 0x07, 2), E(0x17, 0x07, 2), E(0x28, 0x07, 3)))
  const ROW_e5 := R(
    Q(E(0x03, 0x04, 2), E(0x06, 0x04, 2), E(0x0a, 0x04, 2), E(0x0f, 0x04, 2)),
    Q(E(0x18, 0x04, 2), E(0x1f, 0x04, 2), E(0x29, 0x04, 2), E(0x38, 0x04, 3)),
    Q(E(0x03, 0x05, 2), E(0x06, 0x05, 2), E(0x0a, 0x05, 2), E(0x0f, 0x05, 2)),
    Q(E(0x18, 0x05, 2), E(0x1f, 0x05, 2), E(0x29, 0x05, 2), E(0x38, 0x05, 3)))
  const ROW_e6 := R(
    Q(E(0x03, 0x06, 2), E(0x06, 0x06, 2), E(0x0a, 0x06, 2), E(0x0f, 0x06, 2)),
    Q(E(0x18, 0x06, 2), E(0x1f, 0x06, 2), E(0x29, 0x06, 2), E(0x38, 0x06, 3)),
    Q(E(0x03, 0x07, 2), E(0x06, 0x07, 2), E(0x0a, 0x07, 2), E(0x0f, 0x07, 2)),
    Q(E(0x18, 0x07, 2), E(0x1f, 0x07, 2), E(0x29, 0x07, 2), E(0x38, 0x07, 3)))
  const ROW_e7 := R(
    Q(E(0x01, 0x08, 2), E(0x16, 0x08, 3), E(0x01, 0x0b, 2), E(0x16, 0x0b, 3)),
    Q(E(0x01, 0x0c, 2), E(0x16, 0x0c, 3), E(0x01, 0x0e, 2), E(0x16, 0x0e, 3)),
    Q(E(0x01, 0x0f, 2), E(0x16, 0x0f, 3), E(0x01, 0x10, 2), E(0x16, 0x10, 3)),
    Q(E(0x01, 0x11, 2), E(0x16, 0x11, 3), E(0x01, 0x12, 2), E(0x16, 0x12, 3)))
  const ROW_e8 := R(
    Q(E(0x02, 0x08, 2), E(0x09, 0x08, 2), E(0x17, 0x08, 2), E(0x28, 0x08, 3)),
    Q(E(0x02, 0x0b, 2), E(0x09, 0x0b, 2), E(0x17, 0x0b, 2), E(0x28, 0x0b, 3)),
    Q(E(0x02, 0x0c, 2), E(0x09, 0x0c, 2), E(0x17, 0x0c, 2), E(0x28, 0x0c, 3)),
    Q(E(0x02, 0x0e, 2), E(0x09, 0x0e, 2), E(0x17, 0x0e, 2), E(0x28, 0x0e, 3)))
  const ROW_e9 := R(
    Q(E(0x03, 0x08, 2), E(0x06, 0x08, 2), E(0x0a, 0x08, 2), E(0x0f, 0x08, 2)),
    Q(E(0x18, 0x08, 2), E(0x1f, 0x08, 2), E(0x29, 0x08, 2), E(0x38, 0x08, 3)),
    Q(E(0x03, 0x0b, 2), E(0x06, 0x0b, 2), E(0x0a, 0x0b, 2), E(0x0f, 0x0b, 2)),
    Q(E(0x18, 0x0b, 2), E(0x1f, 0x0b, 2), E(0x29, 0x0b, 2), E(0x38, 0x0b, 3)))
  const ROW_ea := R(
    Q(E(0x03, 0x0c, 2), E(0x06, 0x0c, 2), E(0x0a, 0x0c, 2), E(0x0f, 0x0c, 2)),
    Q(E(0x18, 0x0c, 2), E(0x1f, 0x0c, 2), E(0x29, 0x0c, 2), E(0x38, 0x0c, 3)),
    Q(E(0x03, 0x0e, 2), E(0x06, 0x0e, 2), E(0x0a, 0x0e, 2), E(0x0f, 0x0e, 2)),
    Q(E(0x18, 0x0e, 2), E(0x1f, 0x0e, 2), E(0x29, 0x0e, 2), E(0x38, 0x0e, 3)))
  const ROW_eb := R(
    Q(E(0x02, 0x0f, 2), E(0x09, 0x0f, 2), E(0x17, 0x0f, 2), E(0x28, 0x0f, 3)),
    Q(E(0x02, 0x10, 2), E(0x09, 0x10, 2), E(0x17, 0x10, 2), E(0x28, 0x10, 3)),
    Q(E(0x02, 0x11, 2), E(0x09, 0x11, 2), E(0x17, 0x11, 2), E(0x28, 0x11, 3)),
    Q(E(0x02, 0x12, 2), E(0x09, 0x12, 2), E(0x17, 0x12, 2), E(0x28, 0x12, 3)))
  const ROW_ec := R(
    Q(E(0x03, 0x0f, 2), E(0x06, 0x0f, 2), E(0x0a, 0x0f, 2), E(0x0f, 0x0f, 2)),
    Q(E(0x18, 0x0f, 2), E(0x1f, 0x0f, 2), E(0x29, 0x0f, 2), E(0x38, 0x0f, 3)),
    Q(E(0x03, 0x10, 2), E(0x06, 0x10, 2), E(0x0a, 0x10, 2), E(0x0f, 0x10, 2)),
    Q(E(0x18, 0x10, 2), E(0x1f, 0x10, 2), E(0x29, 0x10, 2), E(0x38, 0x10, 3)))
  const ROW_ed := R(
    Q(E(0x03, 0x11, 2), E(0x06, 0x11, 2), E(0x0a, 0x11, 2), E(0x0f, 0x11, 2)),
    Q(E(0x18, 0x11, 2), E(0x1f, 0x11, 2), E(0x29, 0x11, 2), E(0x38, 0x11, 3)),
    Q(E(0x03, 0x12, 2), E(0x06, 0x12, 2), E(0x0a, 0x12, 2), E(0x0f, 0x12, 2)),
    Q(E(0x18, 0x12, 2), E(0x1f, 0x12, 2), E(0x29, 0x12, 2), E(0x38, 0x12, 3)))
  const ROW_ee := R(
    Q(E(0x00, 0x13, 2), E(0x00, 0x14, 2), E(0x00, 0x15, 2), E(0x00, 0x17, 2)),
    Q(E(0x00, 0x18, 2), E(0x00, 0x19, 2), E(0x00, 0x1a, 2), E(0x00, 0x1b, 2)),
    Q(E(0x00, 0x1c, 2), E(0x00, 0x1d, 2), E(0x00, 0x1e, 2), E(0x00, 0x1f, 2)),
    Q(E(0x00, 0x7f, 2), E(0x00, 0xdc, 2), E(0x00, 0xf9, 2), E(0xfd, 0x00, 0)))
  const ROW_ef := R(
    Q(E(0x01, 0x13, 2), E(0x16, 0x13, 3), E(0x01, 0x14, 2), E(0x16, 0x14, 3)),
    Q(E(0x01, 0x15, 2), E(0x16, 0x15, 3), E(0x01, 0x17, 2), E(0x16, 0x17, 3)),
    Q(E(0x01, 0x18, 2), E(0x16, 0x18, 3), E(0x01, 0x19, 2), E(0x16, 0x19, 3)),
    Q(E(0x01, 0x1a, 2), E(0x16, 0x1a, 3), E(0x01, 0x1b, 2), E(0x16, 0x1b, 3)))
  const ROW_f0 := R(
    Q(E(0x02, 0x13, 2), E(0x09, 0x13, 2), E(0x17, 0x13, 2), E(0x28, 0x13, 3)),
    Q(E(0x02, 0x14, 2), E(0x09, 0x14, 2), E(0x17, 0x14, 2), E(0x28, 0x14, 3)),
    Q(E(0x02, 0x15, 2), E(0x09, 0x15, 2), E(0x17, 0x15, 2), E(0x28, 0x15, 3)),
    Q(E(0x02, 0x17, 2), E(0x09, 0x17, 2), E(0x17, 0x17, 2), E(0x28, 0x17, 3)))
  const ROW_f1 := R(
    Q(E(0x03, 0x13, 2), E(0x06, 0x13, 2), E(0x0a, 0x13, 2), E(0x0f, 0x13, 2)),
    Q(E(0x18, 0x13, 2), E(0x1f, 0x13, 2), E(0x29, 0x13, 2), E(0x38, 0x13, 3)),
    Q(E(0x03, 0x14, 2), E(0x06, 0x14, 2), E(0x0a, 0x14, 2), E(0x0f, 0x14, 2)),
    Q(E(0x18, 0x14, 2), E(0x1f, 0x14, 2), E(0x29, 0x14, 2), E(0x38, 0x14, 3)))
  const ROW_f2 := R(
    Q(E(0x03, 0x15, 2), E(0x06, 0x15, 2), E(0x0a, 0x15, 2), E(0x0f, 0x15, 2)),
    Q(E(0x18, 0x15, 2), E(0x1f, 0x15, 2), E(0x29, 0x15, 2), E(0x38, 0x15, 3)),
    Q(E(0x03, 0x17, 2), E(0x06, 0x17, 2), E(0x0a, 0x17, 2), E(0x0f, 0x17, 2)),
    Q(E(0x18, 0x17, 2), E(0x1f, 0x17, 2), E(0x29, 0x17, 2), E(0x38, 0x17, 3)))
  const ROW_f3 := R(
    Q(E(0x02, 0x18, 2), E(0x09, 0x18, 2), E(0x17, 0x18, 2), E(0x28, 0x18, 3)),
    Q(E(0x02, 0x19, 2), E(0x09, 0x19, 2), E(0x17, 0x19, 2), E(0x28, 0x19, 3)),
    Q(E(0x02, 0x1a, 2), E(0x09, 0x1a, 2), E(0x17, 0x1a, 2), E(0x28, 0x1a, 3)),
    Q(E(0x02, 0x1b, 2), E(0x09, 0x1b, 2), E(0x17, 0x1b, 2), E(0x28, 0x1b, 3)))
  const ROW_f4 := R(
    Q(E(0x03, 0x18, 2), E(0x06, 0x18, 2), E(0x0a, 0x18, 2), E(0x0f, 0x18, 2)),
    Q(E(0x18, 0x18, 2), E(0x1f, 0x18, 2), E(0x29, 0x18, 2), E(0x38, 0x18, 3)),
    Q(E(0x03, 0x19, 2), E(0x06, 0x19, 2), E(0x0a, 0x19, 2), E(0x0f, 0x19, 2)),
    Q(E(0x18, 0x19, 2), E(0x1f, 0x19, 2), E(0x29, 0x19, 2), E(0x38, 0x19, 3)))
  const ROW_f5 := R(
    Q(E(0x03, 0x1a, 2), E(0x06, 0x1a, 2), E(0x0a, 0x1a, 2), E(0x0f, 0x1a, 2)),
    Q(E(0x18, 0x1a, 2), E(0x1f, 0x1a, 2), E(0x29, 0x1a, 2), E(0x38, 0x1a, 3)),
    Q(E(0x03, 0x1b, 2), E(0x06, 0x1b, 2), E(0x0a, 0x1b, 2), E(0x0f, 0x1b, 2)),
    Q(E(0x18, 0x1b, 2), E(0x1f, 0x1b, 2), E(0x29, 0x1b, 2), E(0x38, 0x1b, 3)))
  const ROW_f6 := R(
    Q(E(0x01, 0x1c, 2), E(0x16, 0x1c, 3), E(0x01, 0x1d, 2), E(0x16, 0x1d, 3)),
    Q(E(0x01, 0x1e, 2), E(0x16, 0x1e, 3), E(0x01, 0x1f, 2), E(0x16, 0x1f, 3)),
    Q(E(0x01, 0x7f, 2), E(0x16, 0x7f, 3), E(0x01, 0xdc, 2), E(0x16, 0xdc, 3)),
    Q(E(0x01, 0xf9, 2), E(0x16, 0xf9, 3), E(0xfe, 0x00, 0), E(0xff, 0x00, 0)))
  const ROW_f7 := R(
    Q(E(0x02, 0x1c, 2), E(0x09, 0x1c, 2), E(0x17, 0x1c, 2), E(0x28, 0x1c, 3)),
    Q(E(0x02, 0x1d, 2), E(0x09, 0x1d, 2), E(0x17, 0x1d, 2), E(0x28, 0x1d, 3)),
    Q(E(0x02, 0x1e, 2), E(0x09, 0x1e, 2), E(0x17, 0x1e, 2), E(0x28, 0x1e, 3)),
    Q(E(0x02, 0x1f, 2), E(0x09, 0x1f, 2), E(0x17, 0x1f, 2), E(0x28, 0x1f, 3)))
  const ROW_f8 := R(
    Q(E(0x03, 0x1c, 2), E(0x06, 0x1c, 2), E(0x0a, 0x1c, 2), E(0x0f, 0x1c, 2)),
    Q(E(0x18, 0x1c, 2), E(0x1f, 0x1c, 2), E(0x29, 0x1c, 2), E(0x38, 0x1c, 3)),
    Q(E(0x03, 0x1d, 2), E(0x06, 0x1d, 2), E(0x0a, 0x1d, 2), E(0x0f, 0x1d, 2)),
    Q(E(0x18, 0x1d, 2), E(0x1f, 0x1d, 2), E(0x29, 0x1d, 2), E(0x38, 0x1d, 3)))
  const ROW_f9 := R(
    Q(E(0x03, 0x1e, 2), E(0x06, 0x1e, 2), E(0x0a, 0x1e, 2), E(0x0f, 0x1e, 2)),
    Q(E(0x18, 0x1e, 2), E(0x1f, 0x1e, 2), E(0x29, 0x1e, 2), E(0x38, 0x1e, 3)),
    Q(E(0x03, 0x1f, 2), E(0x06, 0x1f, 2), E(0x0a, 0x1f, 2), E(0x0f, 0x1f, 2)),
    Q(E(0x18, 0x1f, 2), E(0x1f, 0x1f, 2), E(0x29, 0x1f, 2), E(0x38, 0x1f, 3)))
  const ROW_fa := R(
    Q(E(0x02, 0x7f, 2), E(0x09, 0x7f, 2), E(0x17, 0x7f, 2), E(0x28, 0x7f, 3)),
    Q(E(0x02, 0xdc, 2), E(0x09, 0xdc, 2), E(0x17, 0xdc, 2), E(0x28, 0xdc, 3)),
    Q(E(0x02, 0xf9, 2), E(0x09, 0xf9, 2), E(0x17, 0xf9, 2), E(0x28, 0xf9, 3)),
    Q(E(0x00, 0x0a, 2), E(0x00, 0x0d, 2), E(0x00, 0x16, 2), E(0x00, 0x00, 4)))
  const ROW_fb := R(
    Q(E(0x03, 0x7f, 2), E(0x06, 0x7f, 2), E(0x0a, 0x7f, 2), E(0x0f, 0x7f, 2)),
    Q(E(0x18, 0x7f, 2), E(0x1f, 0x7f, 2), E(0x29, 0x7f, 2), E(0x38, 0x7f, 3)),
    Q(E(0x03, 0xdc, 2), E(0x06, 0xdc, 2), E(0x0a, 0xdc, 2), E(0x0f, 0xdc, 2)),
    Q(E(0x18, 0xdc, 2), E(0x1f, 0xdc, 2), E(0x29, 0xdc, 2), E(0x38, 0xdc, 3)))
  const ROW_fc := R(
    Q(E(0x03, 0xf9, 2), E(0x06, 0xf9, 2), E(0x0a, 0xf9, 2), E(0x0f, 0xf9, 2)),
    Q(E(0x18, 0xf9, 2), E(0x1f, 0xf9, 2), E(0x29, 0xf9, 2), E(0x38, 0xf9, 3)),
    Q(E(0x01, 0x0a, 2), E(0x16, 0x0a, 3), E(0x01, 0x0d, 2), E(0x16, 0x0d, 3)),
    Q(E(0x01, 0x16, 2), E(0x16, 0x16, 3), E(0x00, 0x00, 4), E(0x00, 0x00, 5)))
  const ROW_fd := R(
    Q(E(0x02, 0x0a, 2), E(0x09, 0x0a, 2), E(0x17, 0x0a, 2), E(0x28, 0x0a, 3)),
    Q(E(0x02, 0x0d, 2), E(0x09, 0x0d, 2), E(0x17, 0x0d, 2), E(0x28, 0x0d, 3)),
    Q(E(0x02, 0x16, 2), E(0x09, 0x16, 2), E(0x17, 0x16, 2), E(0x28, 0x16, 3)),
    Q(E(0x00, 0x00, 4), E(0x00, 0x00, 4), E(0x00, 0x00, 4), E(0x00, 0x00, 5)))
  const ROW_fe := R(
    Q(E(0x03, 0x0a, 2), E(0x06, 0x0a, 2), E(0x0a, 0x0a, 2), E(0x0f, 0x0a, 2)),
    Q(E(0x18, 0x0a, 2), E(0x1f, 0x0a, 2), E(0x29, 0x0a, 2), E(0x38, 0x0a, 3)),
    Q(E(0x03, 0x0d, 2), E(0x06, 0x0d, 2), E(0x0a, 0x0d, 2), E(0x0f, 0x0d, 2)),
    Q(E(0x18, 0x0d, 2), E(0x1f, 0x0d, 2), E(0x29, 0x0d, 2), E(0x38, 0x0d, 3)))
  const ROW_ff := R(
    Q(E(0x03, 0x16, 2), E(0x06, 0x16, 2), E(0x0a, 0x16, 2), E(0x0f, 0x16, 2)),
    Q(E(0x18, 0x16, 2), E(0x1f, 0x16, 2), E(0x29, 0x16, 2), E(0x38, 0x16, 3)),
    Q(E(0x00, 0x00, 4), E(0x00, 0x00, 4), E(0x00, 0x00, 4), E(0x00, 0x00, 4)),
    Q(E(0x00, 0x00, 4), E(0x00, 0x00, 4), E(0x00, 0x00, 4), E(0x00, 0x00, 5)))
}
