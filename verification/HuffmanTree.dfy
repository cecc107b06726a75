/**
 What the two tables of the Huffman codec have to do with each other. Every
 automaton state stands for one inner node of the code tree, given here by the
 path that leads to it; a row is then right when each of its cells reads
 "path of the state, then the nibble" as at most one whole code followed by
 the path of the next state. The rows are checked one at a time against the
 four levels of the code tree below their node.
 */
module HuffmanTree {
  import opened MachineWords
  import opened HuffmanTables

  /** The path from the root to a node, as a number of `len` bits. */
  datatype Node = Node(len: nat, val: nat)

  /** The node a state stands for. */
  function NodeOf(state: u8): Node {
    if state < 0x80 then
      if state < 0x40 then
        if state < 0x20 then
          if state < 0x10 then
            if state < 0x08 then
              if state < 0x04 then
                (if state < 2 then (if state < 1 then Node(0, 0x0) else Node(1, 0x0)) else (if state < 3 then Node(2, 0x0) else Node(3, 0x0)))
              else
                (if state < 6 then (if state < 5 then Node(4, 0x0) else Node(4, 0x1)) else (if state < 7 then Node(3, 0x1) else Node(4, 0x2)))
            else
              if state < 0x0c then
                (if state < 10 then (if state < 9 then Node(4, 0x3) else Node(2, 0x1)) else (if state < 11 then Node(3, 0x2) else Node(4, 0x4)))
              else
                (if state < 14 then (if state < 13 then Node(4, 0x5) else Node(5, 0xa)) else (if state < 15 then Node(5, 0xb) else Node(3, 0x3)))
          else
            if state < 0x18 then
              if state < 0x14 then
                (if state < 18 then (if state < 17 then Node(4, 0x6) else Node(5, 0xc)) else (if state < 19 then Node(5, 0xd) else Node(4, 0x7)))
              else
                (if state < 22 then (if state < 21 then Node(5, 0xe) else Node(5, 0xf)) else (if state < 23 then Node(1, 0x1) else Node(2, 0x2)))
            else
              if state < 0x1c then
                (if state < 26 then (if state < 25 then Node(3, 0x4) else Node(4, 0x8)) else (if state < 27 then Node(5, 0x10) else Node(5, 0x11)))
              else
                (if state < 30 then (if state < 29 then Node(4, 0x9) else Node(5, 0x12)) else (if state < 31 then Node(5, 0x13) else Node(3, 0x5)))
        else
          if state < 0x30 then
            if state < 0x28 then
              if state < 0x24 then
                (if state < 34 then (if state < 33 then Node(4, 0xa) else Node(5, 0x14)) else (if state < 35 then Node(5, 0x15) else Node(4, 0xb)))
              else
                (if state < 38 then (if state < 37 then Node(5, 0x16) else Node(5, 0x17)) else (if state < 39 then Node(6, 0x2e) else Node(6, 0x2f)))
            else
              if state < 0x2c then
                (if state < 42 then (if state < 41 then Node(2, 0x3) else Node(3, 0x6)) else (if state < 43 then Node(4, 0xc) else Node(5, 0x18)))
              else
                (if state < 46 then (if state < 45 then Node(6, 0x30) else Node(6, 0x31)) else (if state < 47 then Node(5, 0x19) else Node(6, 0x32)))
          else
            if state < 0x38 then
              if state < 0x34 then
                (if state < 50 then (if state < 49 then Node(6, 0x33) else Node(4, 0xd)) else (if state < 51 then Node(5, 0x1a) else Node(6, 0x34)))
              else
                (if state < 54 then (if state < 53 then Node(6, 0x35) else Node(5, 0x1b)) else (if state < 55 then Node(6, 0x36) else Node(6, 0x37)))
            else
              if state < 0x3c then
                (if state < 58 then (if state < 57 then Node(3, 0x7) else Node(4, 0xe)) else (if state < 59 then Node(5, 0x1c) else Node(6, 0x38)))
              else
                (if state < 62 then (if state < 61 then Node(6, 0x39) else Node(5, 0x1d)) else (if state < 63 then Node(6, 0x3a) else Node(6, 0x3b)))
      else
        if state < 0x60 then
          if state < 0x50 then
            if state < 0x48 then
              if state < 0x44 then
                (if state < 66 then (if state < 65 then Node(4, 0xf) else Node(5, 0x1e)) else (if state < 67 then Node(6, 0x3c) else Node(6, 0x3d)))
              else
                (if state < 70 then (if state < 69 then Node(5, 0x1f) else Node(6, 0x3e)) else (if state < 71 then Node(7, 0x7c) else Node(7, 0x7d)))
            else
              if state < 0x4c then
                (if state < 74 then (if state < 73 then Node(6, 0x3f) else Node(7, 0x7e)) else (if state < 75 then Node(7, 0x7f) else Node(8, 0xfe)))
              else
                (if state < 78 then (if state < 77 then Node(9, 0x1fc) else Node(9, 0x1fd)) else (if state < 79 then Node(8, 0xff) else Node(9, 0x1fe)))
          else
            if state < 0x58 then
              if state < 0x54 then
                (if state < 82 then (if state < 81 then Node(10, 0x3fd) else Node(9, 0x1ff)) else (if state < 83 then Node(10, 0x3fe) else Node(11, 0x7fd)))
              else
                (if state < 86 then (if state < 85 then Node(10, 0x3ff) else Node(11, 0x7fe)) else (if state < 87 then Node(12, 0xffc) else Node(12, 0xffd)))
            else
              if state < 0x5c then
                (if state < 90 then (if state < 89 then Node(11, 0x7ff) else Node(12, 0xffe)) else (if state < 91 then Node(12, 0xfff) else Node(13, 0x1ffe)))
              else
                (if state < 94 then (if state < 93 then Node(13, 0x1fff) else Node(14, 0x3ffe)) else (if state < 95 then Node(14, 0x3fff) else Node(15, 0x7fff)))
        else
          if state < 0x70 then
            if state < 0x68 then
              if state < 0x64 then
                (if state < 98 then (if state < 97 then Node(16, 0xfffe) else Node(17, 0x1fffc)) else (if state < 99 then Node(18, 0x3fff8) else Node(18, 0x3fff9)))
              else
                (if state < 102 then (if state < 101 then Node(19, 0x7fff3) else Node(17, 0x1fffd)) else (if state < 103 then Node(18, 0x3fffa) else Node(19, 0x7fff4)))
            else
              if state < 0x6c then
                (if state < 106 then (if state < 105 then Node(19, 0x7fff5) else Node(18, 0x3fffb)) else (if state < 107 then Node(19, 0x7fff6) else Node(19, 0x7fff7)))
              else
                (if state < 110 then (if state < 109 then Node(20, 0xfffee) else Node(20, 0xfffef)) else (if state < 111 then Node(16, 0xffff) else Node(17, 0x1fffe)))
          else
            if state < 0x78 then
              if state < 0x74 then
                (if state < 114 then (if state < 113 then Node(18, 0x3fffc) else Node(19, 0x7fff8)) else (if state < 115 then Node(20, 0xffff0) else Node(20, 0xffff1)))
              else
                (if state < 118 then (if state < 117 then Node(19, 0x7fff9) else Node(20, 0xffff2)) else (if state < 119 then Node(20, 0xffff3) else Node(18, 0x3fffd)))
            else
              if state < 0x7c then
                (if state < 122 then (if state < 121 then Node(19, 0x7fffa) else Node(20, 0xffff4)) else (if state < 123 then Node(21, 0x1fffe9) else Node(20, 0xffff5)))
              else
                (if state < 126 then (if state < 125 then Node(21, 0x1fffea) else Node(21, 0x1fffeb)) else (if state < 127 then Node(19, 0x7fffb) else Node(20, 0xffff6)))
    else
      if state < 0xc0 then
        if state < 0xa0 then
          if state < 0x90 then
            if state < 0x88 then
              if state < 0x84 then
                (if state < 130 then (if state < 129 then Node(21, 0x1fffec) else Node(21, 0x1fffed)) else (if state < 131 then Node(20, 0xffff7) else Node(21, 0x1fffee)))
              else
                (if state < 134 then (if state < 133 then Node(21, 0x1fffef) else Node(17, 0x1ffff)) else (if state < 135 then Node(18, 0x3fffe) else Node(19, 0x7fffc)))
            else
              if state < 0x8c then
                (if state < 138 then (if state < 137 then Node(20, 0xffff8) else Node(21, 0x1ffff0)) else (if state < 139 then Node(21, 0x1ffff1) else Node(20, 0xffff9)))
              else
                (if state < 142 then (if state < 141 then Node(21, 0x1ffff2) else Node(21, 0x1ffff3)) else (if state < 143 then Node(19, 0x7fffd) else Node(20, 0xffffa)))
          else
            if state < 0x98 then
              if state < 0x94 then
                (if state < 146 then (if state < 145 then Node(21, 0x1ffff4) else Node(21, 0x1ffff5)) else (if state < 147 then Node(20, 0xffffb) else Node(21, 0x1ffff6)))
              else
                (if state < 150 then (if state < 149 then Node(22, 0x3fffec) else Node(22, 0x3fffed)) else (if state < 151 then Node(21, 0x1ffff7) else Node(22, 0x3fffee)))
            else
              if state < 0x9c then
                (if state < 154 then (if state < 153 then Node(22, 0x3fffef) else Node(18, 0x3ffff)) else (if state < 155 then Node(19, 0x7fffe) else Node(20, 0xffffc)))
              else
                (if state < 158 then (if state < 157 then Node(21, 0x1ffff8) else Node(22, 0x3ffff0)) else (if state < 159 then Node(22, 0x3ffff1) else Node(21, 0x1ffff9)))
        else
          if state < 0xb0 then
            if state < 0xa8 then
              if state < 0xa4 then
                (if state < 162 then (if state < 161 then Node(22, 0x3ffff2) else Node(22, 0x3ffff3)) else (if state < 163 then Node(20, 0xffffd) else Node(21, 0x1ffffa)))
              else
                (if state < 166 then (if state < 165 then Node(22, 0x3ffff4) else Node(22, 0x3ffff5)) else (if state < 167 then Node(21, 0x1ffffb) else Node(22, 0x3ffff6)))
            else
              if state < 0xac then
                (if state < 170 then (if state < 169 then Node(22, 0x3ffff7) else Node(19, 0x7ffff)) else (if state < 171 then Node(20, 0xffffe) else Node(21, 0x1ffffc)))
              else
                (if state < 174 then (if state < 173 then Node(22, 0x3ffff8) else Node(22, 0x3ffff9)) else (if state < 175 then Node(21, 0x1ffffd) else Node(22, 0x3ffffa)))
          else
            if state < 0xb8 then
              if state < 0xb4 then
                (if state < 178 then (if state < 177 then Node(23, 0x7ffff5) else Node(22, 0x3ffffb)) else (if state < 179 then Node(23, 0x7ffff6) else Node(23, 0x7ffff7)))
              else
                (if state < 182 then (if state < 181 then Node(20, 0xfffff) else Node(21, 0x1ffffe)) else (if state < 183 then Node(22, 0x3ffffc) else Node(23, 0x7ffff8)))
            else
              if state < 0xbc then
                (if state < 186 then (if state < 185 then Node(23, 0x7ffff9) else Node(22, 0x3ffffd)) else (if state < 187 then Node(23, 0x7ffffa) else Node(23, 0x7ffffb)))
              else
                (if state < 190 then (if state < 189 then Node(24, 0xfffff6) else Node(24, 0xfffff7)) else (if state < 191 then Node(21, 0x1fffff) else Node(22, 0x3ffffe)))
      else
        if state < 0xe0 then
          if state < 0xd0 then
            if state < 0xc8 then
              if state < 0xc4 then
                (if state < 194 then (if state < 193 then Node(23, 0x7ffffc) else Node(24, 0xfffff8)) else (if state < 195 then Node(25, 0x1fffff0) else Node(25, 0x1fffff1)))
              else
                (if state < 198 then (if state < 197 then Node(24, 0xfffff9) else Node(25, 0x1fffff2)) else (if state < 199 then Node(25, 0x1fffff3) else Node(23, 0x7ffffd)))
            else
              if state < 0xcc then
                (if state < 202 then (if state < 201 then Node(24, 0xfffffa) else Node(25, 0x1fffff4)) else (if state < 203 then Node(25, 0x1fffff5) else Node(24, 0xfffffb)))
              else
                (if state < 206 then (if state < 205 then Node(25, 0x1fffff6) else Node(25, 0x1fffff7)) else (if state < 207 then Node(26, 0x3ffffef) else Node(22, 0x3fffff)))
          else
            if state < 0xd8 then
              if state < 0xd4 then
                (if state < 210 then (if state < 209 then Node(23, 0x7ffffe) else Node(24, 0xfffffc)) else (if state < 211 then Node(25, 0x1fffff8) else Node(26, 0x3fffff0)))
              else
                (if state < 214 then (if state < 213 then Node(26, 0x3fffff1) else Node(25, 0x1fffff9)) else (if state < 215 then Node(26, 0x3fffff2) else Node(26, 0x3fffff3)))
            else
              if state < 0xdc then
                (if state < 218 then (if state < 217 then Node(24, 0xfffffd) else Node(25, 0x1fffffa)) else (if state < 219 then Node(26, 0x3fffff4) else Node(26, 0x3fffff5)))
              else
                (if state < 222 then (if state < 221 then Node(25, 0x1fffffb) else Node(26, 0x3fffff6)) else (if state < 223 then Node(26, 0x3fffff7) else Node(23, 0x7fffff)))
        else
          if state < 0xf0 then
            if state < 0xe8 then
              if state < 0xe4 then
                (if state < 226 then (if state < 225 then Node(24, 0xfffffe) else Node(25, 0x1fffffc)) else (if state < 227 then Node(26, 0x3fffff8) else Node(27, 0x7fffff1)))
              else
                (if state < 230 then (if state < 229 then Node(26, 0x3fffff9) else Node(27, 0x7fffff2)) else (if state < 231 then Node(27, 0x7fffff3) else Node(25, 0x1fffffd)))
            else
              if state < 0xec then
                (if state < 234 then (if state < 233 then Node(26, 0x3fffffa) else Node(27, 0x7fffff4)) else (if state < 235 then Node(27, 0x7fffff5) else Node(26, 0x3fffffb)))
              else
                (if state < 238 then (if state < 237 then Node(27, 0x7fffff6) else Node(27, 0x7fffff7)) else (if state < 239 then Node(24, 0xffffff) else Node(25, 0x1fffffe)))
          else
            if state < 0xf8 then
              if state < 0xf4 then
                (if state < 242 then (if state < 241 then Node(26, 0x3fffffc) else Node(27, 0x7fffff8)) else (if state < 243 then Node(27, 0x7fffff9) else Node(26, 0x3fffffd)))
              else
                (if state < 246 then (if state < 245 then Node(27, 0x7fffffa) else Node(27, 0x7fffffb)) else (if state < 247 then Node(25, 0x1ffffff) else Node(26, 0x3fffffe)))
            else
              if state < 0xfc then
                (if state < 250 then (if state < 249 then Node(27, 0x7fffffc) else Node(27, 0x7fffffd)) else (if state < 251 then Node(26, 0x3ffffff) else Node(27, 0x7fffffe)))
              else
                (if state < 254 then (if state < 253 then Node(27, 0x7ffffff) else Node(28, 0xfffffff)) else (if state < 255 then Node(29, 0x1ffffffe) else Node(29, 0x1fffffff)))
  }

  //
  // The code is canonical: the codes of length n are the consecutive numbers from
  // First(n) up to Limit(n), and longer codes start where shorter ones end.
  //

  function First(n: nat): nat
    requires n <= 30
  {
    if n == 0 then 0 else 2 * Limit(n - 1)
  }

  function Limit(n: nat): nat
    requires n <= 30
  {
    if n < 0x10 then
      if n < 0x08 then
        if n < 0x04 then
          (if n < 2 then (if n < 1 then 0x0 else 0x0) else (if n < 3 then 0x0 else 0x0))
        else
          (if n < 6 then (if n < 5 then 0x0 else 0xa) else (if n < 7 then 0x2e else 0x7c))
      else
        if n < 0x0c then
          (if n < 10 then (if n < 9 then 0xfe else 0x1fc) else (if n < 11 then 0x3fd else 0x7fd))
        else
          (if n < 14 then (if n < 13 then 0xffc else 0x1ffe) else (if n < 15 then 0x3ffe else 0x7fff))
    else
      if n < 0x18 then
        if n < 0x14 then
          (if n < 18 then (if n < 17 then 0xfffe else 0x1fffc) else (if n < 19 then 0x3fff8 else 0x7fff3))
        else
          (if n < 22 then (if n < 21 then 0xfffee else 0x1fffe9) else (if n < 23 then 0x3fffec else 0x7ffff5))
      else
        if n < 0x1c then
          (if n < 26 then (if n < 25 then 0xfffff6 else 0x1fffff0) else (if n < 27 then 0x3ffffef else 0x7fffff1))
        else
          (if n < 30 then (if n < 29 then 0xfffffff else 0x1ffffffe) else 0x40000000)
  }

  /** How many codes are shorter than `n` bits. */
  function Shorter(n: nat): nat
    requires n <= 30
  {
    if n < 0x10 then
      if n < 0x08 then
        if n < 0x04 then
          (if n < 2 then (if n < 1 then 0 else 0) else (if n < 3 then 0 else 0))
        else
          (if n < 6 then (if n < 5 then 0 else 0) else (if n < 7 then 10 else 36))
      else
        if n < 0x0c then
          (if n < 10 then (if n < 9 then 68 else 74) else (if n < 11 then 74 else 79))
        else
          (if n < 14 then (if n < 13 then 82 else 84) else (if n < 15 then 90 else 92))
    else
      if n < 0x18 then
        if n < 0x14 then
          (if n < 18 then (if n < 17 then 95 else 95) else (if n < 19 then 95 else 95))
        else
          (if n < 22 then (if n < 21 then 98 else 106) else (if n < 23 then 119 else 145))
      else
        if n < 0x1c then
          (if n < 26 then (if n < 25 then 174 else 186) else (if n < 27 then 190 else 205))
        else
          (if n < 30 then (if n < 29 then 224 else 253) else 253)
  }

  /** The symbols in the order of their codes. */
  function InOrder(rank: nat): nat {
    if rank < 0x100 then
      if rank < 0x80 then
        if rank < 0x40 then
          if rank < 0x20 then
            if rank < 0x10 then
              if rank < 0x08 then
                if rank < 0x04 then
                  (if rank < 2 then (if rank < 1 then 48 else 49) else (if rank < 3 then 50 else 97))
                else
                  (if rank < 6 then (if rank < 5 then 99 else 101) else (if rank < 7 then 105 else 111))
              else
                if rank < 0x0c then
                  (if rank < 10 then (if rank < 9 then 115 else 116) else (if rank < 11 then 32 else 37))
                else
                  (if rank < 14 then (if rank < 13 then 45 else 46) else (if rank < 15 then 47 else 51))
            else
              if rank < 0x18 then
                if rank < 0x14 then
                  (if rank < 18 then (if rank < 17 then 52 else 53) else (if rank < 19 then 54 else 55))
                else
                  (if rank < 22 then (if rank < 21 then 56 else 57) else (if rank < 23 then 61 else 65))
              else
                if rank < 0x1c then
                  (if rank < 26 then (if rank < 25 then 95 else 98) else (if rank < 27 then 100 else 102))
                else
                  (if rank < 30 then (if rank < 29 then 103 else 104) else (if rank < 31 then 108 else 109))
          else
            if rank < 0x30 then
              if rank < 0x28 then
                if rank < 0x24 then
                  (if rank < 34 then (if rank < 33 then 110 else 112) else (if rank < 35 then 114 else 117))
                else
                  (if rank < 38 then (if rank < 37 then 58 else 66) else (if rank < 39 then 67 else 68))
              else
                if rank < 0x2c then
                  (if rank < 42 then (if rank < 41 then 69 else 70) else (if rank < 43 then 71 else 72))
                else
                  (if rank < 46 then (if rank < 45 then 73 else 74) else (if rank < 47 then 75 else 76))
            else
              if rank < 0x38 then
                if rank < 0x34 then
                  (if rank < 50 then (if rank < 49 then 77 else 78) else (if rank < 51 then 79 else 80))
                else
                  (if rank < 54 then (if rank < 53 then 81 else 82) else (if rank < 55 then 83 else 84))
              else
                if rank < 0x3c then
                  (if rank < 58 then (if rank < 57 then 85 else 86) else (if rank < 59 then 87 else 89))
                else
                  (if rank < 62 then (if rank < 61 then 106 else 107) else (if rank < 63 then 113 else 118))
        else
          if rank < 0x60 then
            if rank < 0x50 then
              if rank < 0x48 then
                if rank < 0x44 then
                  (if rank < 66 then (if rank < 65 then 119 else 120) else (if rank < 67 then 121 else 122))
                else
                  (if rank < 70 then (if rank < 69 then 38 else 42) else (if rank < 71 then 44 else 59))
              else
                if rank < 0x4c then
                  (if rank < 74 then (if rank < 73 then 88 else 90) else (if rank < 75 then 33 else 34))
                else
                  (if rank < 78 then (if rank < 77 then 40 else 41) else (if rank < 79 then 63 else 39))
            else
              if rank < 0x58 then
                if rank < 0x54 then
                  (if rank < 82 then (if rank < 81 then 43 else 124) else (if rank < 83 then 35 else 62))
                else
                  (if rank < 86 then (if rank < 85 then 0 else 36) else (if rank < 87 then 64 else 91))
              else
                if rank < 0x5c then
                  (if rank < 90 then (if rank < 89 then 93 else 126) else (if rank < 91 then 94 else 125))
                else
                  (if rank < 94 then (if rank < 93 then 60 else 96) else (if rank < 95 then 123 else 92))
          else
            if rank < 0x70 then
              if rank < 0x68 then
                if rank < 0x64 then
                  (if rank < 98 then (if rank < 97 then 195 else 208) else (if rank < 99 then 128 else 130))
                else
                  (if rank < 102 then (if rank < 101 then 131 else 162) else (if rank < 103 then 184 else 194))
              else
                if rank < 0x6c then
                  (if rank < 106 then (if rank < 105 then 224 else 226) else (if rank < 107 then 153 else 161))
                else
                  (if rank < 110 then (if rank < 109 then 167 else 172) else (if rank < 111 then 176 else 177))
            else
              if rank < 0x78 then
                if rank < 0x74 then
                  (if rank < 114 then (if rank < 113 then 179 else 209) else (if rank < 115 then 216 else 217))
                else
                  (if rank < 118 then (if rank < 117 then 227 else 229) else (if rank < 119 then 230 else 129))
              else
                if rank < 0x7c then
                  (if rank < 122 then (if rank < 121 then 132 else 133) else (if rank < 123 then 134 else 136))
                else
                  (if rank < 126 then (if rank < 125 then 146 else 154) else (if rank < 127 then 156 else 160))
      else
        if rank < 0xc0 then
          if rank < 0xa0 then
            if rank < 0x90 then
              if rank < 0x88 then
                if rank < 0x84 then
                  (if rank < 130 then (if rank < 129 then 163 else 164) else (if rank < 131 then 169 else 170))
                else
                  (if rank < 134 then (if rank < 133 then 173 else 178) else (if rank < 135 then 181 else 185))
              else
                if rank < 0x8c then
                  (if rank < 138 then (if rank < 137 then 186 else 187) else (if rank < 139 then 189 else 190))
                else
                  (if rank < 142 then (if rank < 141 then 196 else 198) else (if rank < 143 then 228 else 232))
            else
              if rank < 0x98 then
                if rank < 0x94 then
                  (if rank < 146 then (if rank < 145 then 233 else 1) else (if rank < 147 then 135 else 137))
                else
                  (if rank < 150 then (if rank < 149 then 138 else 139) else (if rank < 151 then 140 else 141))
              else
                if rank < 0x9c then
                  (if rank < 154 then (if rank < 153 then 143 else 147) else (if rank < 155 then 149 else 150))
                else
                  (if rank < 158 then (if rank < 157 then 151 else 152) else (if rank < 159 then 155 else 157))
          else
            if rank < 0xb0 then
              if rank < 0xa8 then
                if rank < 0xa4 then
                  (if rank < 162 then (if rank < 161 then 158 else 165) else (if rank < 163 then 166 else 168))
                else
                  (if rank < 166 then (if rank < 165 then 174 else 175) else (if rank < 167 then 180 else 182))
              else
                if rank < 0xac then
                  (if rank < 170 then (if rank < 169 then 183 else 188) else (if rank < 171 then 191 else 197))
                else
                  (if rank < 174 then (if rank < 173 then 231 else 239) else (if rank < 175 then 9 else 142))
            else
              if rank < 0xb8 then
                if rank < 0xb4 then
                  (if rank < 178 then (if rank < 177 then 144 else 145) else (if rank < 179 then 148 else 159))
                else
                  (if rank < 182 then (if rank < 181 then 171 else 206) else (if rank < 183 then 215 else 225))
              else
                if rank < 0xbc then
                  (if rank < 186 then (if rank < 185 then 236 else 237) else (if rank < 187 then 199 else 207))
                else
                  (if rank < 190 then (if rank < 189 then 234 else 235) else (if rank < 191 then 192 else 193))
        else
          if rank < 0xe0 then
            if rank < 0xd0 then
              if rank < 0xc8 then
                if rank < 0xc4 then
                  (if rank < 194 then (if rank < 193 then 200 else 201) else (if rank < 195 then 202 else 205))
                else
                  (if rank < 198 then (if rank < 197 then 210 else 213) else (if rank < 199 then 218 else 219))
              else
                if rank < 0xcc then
                  (if rank < 202 then (if rank < 201 then 238 else 240) else (if rank < 203 then 242 else 243))
                else
                  (if rank < 206 then (if rank < 205 then 255 else 203) else (if rank < 207 then 204 else 211))
            else
              if rank < 0xd8 then
                if rank < 0xd4 then
                  (if rank < 210 then (if rank < 209 then 212 else 214) else (if rank < 211 then 221 else 222))
                else
                  (if rank < 214 then (if rank < 213 then 223 else 241) else (if rank < 215 then 244 else 245))
              else
                if rank < 0xdc then
                  (if rank < 218 then (if rank < 217 then 246 else 247) else (if rank < 219 then 248 else 250))
                else
                  (if rank < 222 then (if rank < 221 then 251 else 252) else (if rank < 223 then 253 else 254))
          else
            if rank < 0xf0 then
              if rank < 0xe8 then
                if rank < 0xe4 then
                  (if rank < 226 then (if rank < 225 then 2 else 3) else (if rank < 227 then 4 else 5))
                else
                  (if rank < 230 then (if rank < 229 then 6 else 7) else (if rank < 231 then 8 else 11))
              else
                if rank < 0xec then
                  (if rank < 234 then (if rank < 233 then 12 else 14) else (if rank < 235 then 15 else 16))
                else
                  (if rank < 238 then (if rank < 237 then 17 else 18) else (if rank < 239 then 19 else 20))
            else
              if rank < 0xf8 then
                if rank < 0xf4 then
                  (if rank < 242 then (if rank < 241 then 21 else 23) else (if rank < 243 then 24 else 25))
                else
                  (if rank < 246 then (if rank < 245 then 26 else 27) else (if rank < 247 then 28 else 29))
              else
                if rank < 0xfc then
                  (if rank < 250 then (if rank < 249 then 30 else 31) else (if rank < 251 then 127 else 220))
                else
                  (if rank < 254 then (if rank < 253 then 249 else 10) else (if rank < 255 then 13 else 22))
    else
      256
  }

  predicate SymbolInOrder(x: nat) {
    var c := EncodeEntry(x);
    && 5 <= c.nbits <= 30
    && First(c.nbits) <= c.code < Limit(c.nbits)
    && InOrder(Shorter(c.nbits) + c.code - First(c.nbits)) == x
  }

  //
  // Bit strings of codes and states, and what a cell has to say about them.
  //

  function CodeBits(symbol: nat): seq<bool> {
    var c := EncodeEntry(symbol);
    Bits(c.code, c.nbits)
  }

  function PathBits(state: u8): seq<bool> {
    Bits(NodeOf(state).val, NodeOf(state).len)
  }

  /** The bit strings that may be left unread at the end: 1 to 7 ones. */
  predicate IsPadding(p: seq<bool>) {
    1 <= |p| <= 7 && p == Fill(true, |p|)
  }

  /** Cell `e` is what reading the `k` bits of `n` after the bits `p` amounts to. */
  ghost predicate Reads(p: seq<bool>, n: nat, k: nat, e: Entry) {
    var read := p + Bits(n, k);
    if Error(e.flags) then
      |p| <= |CodeBits(EOS)| && CodeBits(EOS) <= read
    else
      && (MaybeEos(e.flags) <==> IsPadding(PathBits(e.state)))
      && (if Decoded(e.flags) then
            |p| <= |CodeBits(e.byte)| && read == CodeBits(e.byte) + PathBits(e.state)
          else
            read == PathBits(e.state))
  }

  /** Every cell of a row reads one of the sixteen nibbles from the node of its state. */
  ghost predicate RowAgrees(s: u8, row: Row) {
    forall n | 0 <= n < 16 ::
      var e := row.At(n);
      && Reads(PathBits(s), n, 4, e)
      && (Error(e.flags) ==> |PathBits(s)| < |CodeBits(EOS)|)
      && (!Error(e.flags) && Decoded(e.flags) ==> |PathBits(s)| < |CodeBits(e.byte)|)
  }

  //
  // The code is prefix free.
  //

  function Halved(v: nat, d: nat): nat {
    if d == 0 then v else Halved(v / 2, d - 1)
  }

  lemma {:induction false} HalvedBits(v: nat, n: nat, d: nat)
    requires v < Pow2(n + d)
    ensures Bits(v, n + d)[..n] == Bits(Halved(v, d), n)
    ensures Halved(v, d) < Pow2(n)
  {
    if d > 0 {
      HalvedBits(v / 2, n, d - 1);
    }
  }

  lemma FirstBelowLimit(n: nat)
    requires n <= 30
    ensures First(n) <= Limit(n)
  {
  }

  lemma {:induction false} LimitBelowPow2(n: nat)
    requires n <= 30
    ensures Limit(n) <= Pow2(n)
    decreases 30 - n
  {
    if n == 30 {
      assert Pow2(5) == 32;
      Pow2Square(5, 32);
      Pow2Square(10, 1024);
      Pow2Add(20, 10);
    } else {
      LimitBelowPow2(n + 1);
      FirstBelowLimit(n + 1);
    }
  }

  // The leading bits of a longer code are a number beyond the shorter codes.
  lemma {:induction false} BeyondShorter(v: nat, n: nat, d: nat)
    requires 0 < d <= n <= 30
    requires First(n) <= v
    ensures Limit(n - d) <= Halved(v, d)
  {
    assert Limit(n - 1) <= v / 2;
    if d > 1 {
      FirstBelowLimit(n - 1);
      BeyondShorter(v / 2, n - 1, d - 1);
    } else {
      assert Halved(v, 1) == Halved(v / 2, 0);
    }
  }

  /** No code is a prefix of another. */
  lemma PrefixFree(x: nat, y: nat)
    requires x <= EOS && y <= EOS
    requires CodeBits(x) <= CodeBits(y)
    ensures x == y
  {
    hide EncodeEntry, Limit, Shorter, InOrder, Pow2;
    CodeInOrder(x);
    CodeInOrder(y);
    var c, c' := EncodeEntry(x), EncodeEntry(y);
    var d := c'.nbits - c.nbits;
    LimitBelowPow2(c.nbits);
    LimitBelowPow2(c'.nbits);
    HalvedBits(c'.code, c.nbits, d);
    BitsInjective(c.code, Halved(c'.code, d), c.nbits);
    if d > 0 {
      BeyondShorter(c'.code, c'.nbits, d);
    }
  }

  //
  // Checking a row against the code tree.
  //

  /** Up to four levels of the code tree: a symbol, a state, EOS, or a fork. */
  datatype Subtree = L(symbol: u8) | S(state: u8) | Eos | F(zero: Subtree, one: Subtree)

  // The subtree `w` hangs below the node (len, val) of the code tree.
  predicate Below(len: nat, val: nat, w: Subtree)
    decreases w
  {
    match w
    case L(c) => EncodeEntry(c) == Code(len, val)
    case S(t) => NodeOf(t) == Node(len, val)
    case Eos => EncodeEntry(EOS) == Code(len, val)
    case F(zero, one) => Below(len + 1, val + val, zero) && Below(len + 1, val + val + 1, one)
  }

  // The cells for the bits that lead into a subtree, one predicate a level. Below a symbol come
  // the states of the k-bit strings from 00..0 to 11..1; the last is padding, so its flag is set.

  predicate CellIs(w: Subtree, x: Entry) {
    match w
    case L(c) => x == E(0x00, c, 2)
    case S(t) => x == E(t, 0, if t == 0x40 || t == 0x44 || t == 0x48 || t == 0x4a then 1 else 0)
    case Eos => Error(x.flags)
    case F(_, _) => false
  }

  predicate PairIs(w: Subtree, x: Entry, y: Entry) {
    match w
    case L(c) => x == E(0x01, c, 2) && y == E(0x16, c, 3)
    case F(zero, one) => CellIs(zero, x) && CellIs(one, y)
    case Eos => Error(x.flags) && Error(y.flags)
    case S(_) => false
  }

  predicate Fails(q: Quad) {
    Error(q.e0.flags) && Error(q.e1.flags) && Error(q.e2.flags) && Error(q.e3.flags)
  }

  predicate QuadIs(w: Subtree, q: Quad) {
    match w
    case L(c) => q == Q(E(0x02, c, 2), E(0x09, c, 2), E(0x17, c, 2), E(0x28, c, 3))
    case F(zero, one) => PairIs(zero, q.e0, q.e1) && PairIs(one, q.e2, q.e3)
    case Eos => Fails(q)
    case S(_) => false
  }

  predicate HalfIs(w: Subtree, a: Quad, b: Quad) {
    match w
    case L(c) =>
      && a == Q(E(0x03, c, 2), E(0x06, c, 2), E(0x0a, c, 2), E(0x0f, c, 2))
      && b == Q(E(0x18, c, 2), E(0x1f, c, 2), E(0x29, c, 2), E(0x38, c, 3))
    case F(zero, one) => QuadIs(zero, a) && QuadIs(one, b)
    case Eos => Fails(a) && Fails(b)
    case S(_) => false
  }

  predicate RowIs(w: Subtree, r: Row) {
    w.F? && HalfIs(w.zero, r.q0, r.q1) && HalfIs(w.one, r.q2, r.q3)
  }

  // Reading one more bit on the way down.
  lemma ReadsDown(len: nat, val: nat, b: bool, n: nat, k: nat, e: Entry)
    requires n < Pow2(k)
    requires Reads(Bits(val + val + (if b then 1 else 0), len + 1), n, k, e)
    ensures Reads(Bits(val, len), (if b then Pow2(k) else 0) + n, k + 1, e)
    ensures Error(e.flags) ==> len < |CodeBits(EOS)|
    ensures !Error(e.flags) && Decoded(e.flags) ==> len < |CodeBits(e.byte)|
  {
    hide CodeBits, PathBits, IsPadding, Error, Decoded, MaybeEos, Pow2;
    BitsDown(val, len, b, n, k);
  }

  // Below a symbol: the state of the k bits that follow it.
  lemma ReadsLeaf(c: u8, n: nat, k: nat, e: Entry)
    requires k <= 3 && e == E(e.state, c, if k > 0 && n == Pow2(k) - 1 then 3 else 2)
    requires n < Pow2(k) && NodeOf(e.state) == Node(k, n)
    ensures Reads(CodeBits(c), n, k, e)
  {
    hide NodeOf, EncodeEntry, CodeBits;
    OnesBits(k);
    if IsPadding(Bits(n, k)) {
      BitsInjective(n, Pow2(k) - 1, k);
    }
  }

  lemma ReadsEos(n: nat, k: nat, e: Entry)
    requires Error(e.flags)
    ensures Reads(CodeBits(EOS), n, k, e)
  {
    hide EncodeEntry;
  }

  // The only states whose path is 4 to 7 ones.
  lemma PaddingStates(t: u8)
    requires NodeOf(t).len >= 4
    ensures IsPadding(PathBits(t)) <==> t == 0x40 || t == 0x44 || t == 0x48 || t == 0x4a
  {
    var node := NodeOf(t);
    assert Pow2(4) == 16;
    assert Pow2(7) == 128;
    if t == 0x40 || t == 0x44 || t == 0x48 || t == 0x4a {
      OnesBits(node.len);
    } else if IsPadding(PathBits(t)) {
      SmallNode(t);
      OnesBits(node.len);
      BitsInjective(node.val, Pow2(node.len) - 1, node.len);
      OnesNode(t);
    }
  }

  /** The paths of one to seven ones belong to seven states. */
  lemma PaddingStatesAll(t: u8)
    ensures IsPadding(PathBits(t)) <==> t in {0x16, 0x28, 0x38, 0x40, 0x44, 0x48, 0x4a}
  {
    if NodeOf(t).len >= 4 {
      PaddingStates(t);
    } else {
      ShallowStates(t);
    }
    HighStates(t);
  }

  lemma HighStates(t: u8)
    ensures t in {0x40, 0x44, 0x48, 0x4a} ==> NodeOf(t).len >= 4
    ensures t in {0x16, 0x28, 0x38} ==> NodeOf(t).len < 4
  {
  }

  lemma ShallowStates(t: u8)
    requires NodeOf(t).len < 4
    ensures IsPadding(PathBits(t)) <==> t in {0x16, 0x28, 0x38}
  {
    var node := NodeOf(t);
    OnesBits(node.len);
    assert Pow2(0) == 1 && Pow2(1) == 2 && Pow2(2) == 4 && Pow2(3) == 8;
    ShallowValue(t);
    if IsPadding(PathBits(t)) {
      BitsInjective(node.val, Pow2(node.len) - 1, node.len);
    }
  }

  lemma ShallowValue(t: u8)
    requires NodeOf(t).len < 4
    ensures
      var v := NodeOf(t).val;
      match NodeOf(t).len
      case 0 => v == 0 && t == 0
      case 1 => v < 2 && (v == 1 <==> t == 0x16)
      case 2 => v < 4 && (v == 3 <==> t == 0x28)
      case _ => v < 8 && (v == 7 <==> t == 0x38)
    ensures t in {0x16, 0x28, 0x38} ==> NodeOf(t).len > 0 && (NodeOf(t).len == 1 <==> t == 0x16) && (NodeOf(t).len == 2 <==> t == 0x28)
  {
  }

  lemma SmallNode(t: u8)
    requires 4 <= NodeOf(t).len <= 7
    ensures NodeOf(t).val < Pow2(NodeOf(t).len)
  {
    assert Pow2(4) == 16;
    assert Pow2(7) == 128;
    SmallNodeValue(t);
  }

  lemma SmallNodeValue(t: u8)
    requires 4 <= NodeOf(t).len <= 7
    ensures NodeOf(t).len == 4 ==> NodeOf(t).val < 16
    ensures NodeOf(t).len == 5 ==> NodeOf(t).val < 32
    ensures NodeOf(t).len == 6 ==> NodeOf(t).val < 64
    ensures NodeOf(t).len == 7 ==> NodeOf(t).val < 128
  {
  }

  lemma OnesNode(t: u8)
    requires 4 <= NodeOf(t).len <= 7 && NodeOf(t).val == Pow2(NodeOf(t).len) - 1
    ensures t == 0x40 || t == 0x44 || t == 0x48 || t == 0x4a
  {
    assert Pow2(4) == 16;
    assert Pow2(7) == 128;
    var v := NodeOf(t).val;
    assert v == 15 || v == 31 || v == 63 || v == 127;
  }

  lemma ReadsState(t: u8, x: Entry)
    requires NodeOf(t).len >= 4 && CellIs(S(t), x)
    ensures Reads(PathBits(t), 0, 0, x)
  {
    PaddingStates(t);
    assert Bits(0, 0) == [];
    assert !Error(x.flags) && !Decoded(x.flags) && (MaybeEos(x.flags) <==> x.flags == 1);
    hide NodeOf, EncodeEntry, CodeBits, IsPadding, Bits, PathBits, Error, Decoded, MaybeEos;
    assert PathBits(t) + Bits(0, 0) == PathBits(t);
  }

  lemma CellReads(len: nat, val: nat, w: Subtree, x: Entry)
    requires len >= 4 && Below(len, val, w) && CellIs(w, x)
    ensures Reads(Bits(val, len), 0, 0, x)
  {
    hide EncodeEntry, Reads;
    match w
    case L(c) => ReadsLeaf(c, 0, 0, x);
    case S(t) => ReadsState(t, x);
    case Eos => ReadsEos(0, 0, x);
    case F(_, _) =>
  }

  lemma PairReads(len: nat, val: nat, w: Subtree, x: Entry, y: Entry)
    requires len >= 3 && Below(len, val, w) && PairIs(w, x, y)
    ensures Reads(Bits(val, len), 0, 1, x) && Reads(Bits(val, len), 1, 1, y)
  {
    hide Reads, EncodeEntry, CellIs, Bits;
    assert Pow2(0) == 1;
    match w
    case L(c) =>
      ReadsLeaf(c, 0, 1, x);
      ReadsLeaf(c, 1, 1, y);
    case F(zero, one) =>
      CellReads(len + 1, val + val, zero, x);
      CellReads(len + 1, val + val + 1, one, y);
      ReadsDown(len, val, false, 0, 0, x);
      ReadsDown(len, val, true, 0, 0, y);
    case Eos =>
      ReadsEos(0, 1, x);
      ReadsEos(1, 1, y);
    case S(_) =>
  }

  ghost predicate QuadReads(p: seq<bool>, n: nat, k: nat, q: Quad) {
    Reads(p, n, k, q.e0) && Reads(p, n + 1, k, q.e1) && Reads(p, n + 2, k, q.e2) && Reads(p, n + 3, k, q.e3)
  }

  lemma EosQuad(n: nat, k: nat, q: Quad)
    requires Fails(q)
    ensures QuadReads(CodeBits(EOS), n, k, q)
  {
    hide Reads, CodeBits;
    ReadsEos(n, k, q.e0);
    ReadsEos(n + 1, k, q.e1);
    ReadsEos(n + 2, k, q.e2);
    ReadsEos(n + 3, k, q.e3);
  }

  lemma QuadDown(len: nat, val: nat, b: bool, n: nat, k: nat, q: Quad)
    requires n + 3 < Pow2(k)
    requires QuadReads(Bits(val + val + (if b then 1 else 0), len + 1), n, k, q)
    ensures QuadReads(Bits(val, len), (if b then Pow2(k) else 0) + n, k + 1, q)
  {
    hide Reads, Pow2, Bits;
    ReadsDown(len, val, b, n, k, q.e0);
    ReadsDown(len, val, b, n + 1, k, q.e1);
    ReadsDown(len, val, b, n + 2, k, q.e2);
    ReadsDown(len, val, b, n + 3, k, q.e3);
  }

  lemma QuadIsReads(len: nat, val: nat, w: Subtree, q: Quad)
    requires len >= 2 && Below(len, val, w) && QuadIs(w, q)
    ensures QuadReads(Bits(val, len), 0, 2, q)
  {
    hide Reads, EncodeEntry, PairIs, Bits;
    assert Pow2(1) == 2;
    match w
    case L(c) =>
      ReadsLeaf(c, 0, 2, q.e0);
      ReadsLeaf(c, 1, 2, q.e1);
      ReadsLeaf(c, 2, 2, q.e2);
      ReadsLeaf(c, 3, 2, q.e3);
    case F(zero, one) =>
      PairReads(len + 1, val + val, zero, q.e0, q.e1);
      PairReads(len + 1, val + val + 1, one, q.e2, q.e3);
      ReadsDown(len, val, false, 0, 1, q.e0);
      ReadsDown(len, val, false, 1, 1, q.e1);
      ReadsDown(len, val, true, 0, 1, q.e2);
      ReadsDown(len, val, true, 1, 1, q.e3);
    case Eos => EosQuad(0, 2, q);
    case S(_) =>
  }

  lemma LeafHalf(c: u8, a: Quad, b: Quad)
    requires a == Q(E(0x03, c, 2), E(0x06, c, 2), E(0x0a, c, 2), E(0x0f, c, 2))
    requires b == Q(E(0x18, c, 2), E(0x1f, c, 2), E(0x29, c, 2), E(0x38, c, 3))
    ensures QuadReads(CodeBits(c), 0, 3, a) && QuadReads(CodeBits(c), 4, 3, b)
  {
    hide Reads, EncodeEntry;
    assert Pow2(3) == 8;
    ReadsLeaf(c, 0, 3, a.e0);
    ReadsLeaf(c, 1, 3, a.e1);
    ReadsLeaf(c, 2, 3, a.e2);
    ReadsLeaf(c, 3, 3, a.e3);
    ReadsLeaf(c, 4, 3, b.e0);
    ReadsLeaf(c, 5, 3, b.e1);
    ReadsLeaf(c, 6, 3, b.e2);
    ReadsLeaf(c, 7, 3, b.e3);
  }

  lemma HalfReads(len: nat, val: nat, w: Subtree, a: Quad, b: Quad)
    requires len >= 1 && Below(len, val, w) && HalfIs(w, a, b)
    ensures QuadReads(Bits(val, len), 0, 3, a) && QuadReads(Bits(val, len), 4, 3, b)
  {
    hide QuadReads, QuadIs, NodeOf, EncodeEntry, Bits;
    assert Pow2(2) == 4;
    match w
    case L(c) => LeafHalf(c, a, b);
    case F(zero, one) =>
      QuadIsReads(len + 1, val + val, zero, a);
      QuadIsReads(len + 1, val + val + 1, one, b);
      QuadDown(len, val, false, 0, 2, a);
      QuadDown(len, val, true, 0, 2, b);
    case Eos =>
      EosQuad(0, 3, a);
      EosQuad(4, 3, b);
    case S(_) =>
  }

  /** A row that spells out the subtree below its node is right. */
  lemma RowFromTree(s: u8, row: Row, w: Subtree)
    requires RowIs(w, row)
    requires Below(NodeOf(s).len, NodeOf(s).val, w)
    ensures RowAgrees(s, row)
  {
    hide Reads, NodeOf, EncodeEntry, HalfIs;
    var len, val := NodeOf(s).len, NodeOf(s).val;
    HalfReads(len + 1, val + val, w.zero, row.q0, row.q1);
    HalfReads(len + 1, val + val + 1, w.one, row.q2, row.q3);
    assert Pow2(3) == 8;
    forall n | 0 <= n < 16
      ensures
        var e := row.At(n);
        && Reads(PathBits(s), n, 4, e)
        && (Error(e.flags) ==> |PathBits(s)| < |CodeBits(EOS)|)
        && (!Error(e.flags) && Decoded(e.flags) ==> |PathBits(s)| < |CodeBits(e.byte)|)
    {
      ReadsDown(len, val, n >= 8, n % 8, 3, row.At(n));
    }
  }


  lemma Row_00()
    ensures RowAgrees(0x00, ROW_00)
  {
    RowFromTree(0x00, ROW_00, F(F(F(F(S(0x04), S(0x05)), F(S(0x07), S(0x08))), F(F(S(0x0b), S(0x0c)), F(S(0x10), S(0x13)))), F(F(F(S(0x19), S(0x1c)), F(S(0x20), S(0x23))), F(F(S(0x2a), S(0x31)), F(S(0x39), S(0x40))))));
  }

  lemma Row_01()
    ensures RowAgrees(0x01, ROW_01)
  {
    RowFromTree(0x01, ROW_01, F(F(F(F(L(0x30), L(0x31)), F(L(0x32), L(0x61))), F(F(L(0x63), L(0x65)), F(L(0x69), L(0x6f)))), F(F(F(L(0x73), L(0x74)), F(S(0x0d), S(0x0e))), F(F(S(0x11), S(0x12)), F(S(0x14), S(0x15))))));
  }

  lemma Row_02()
    ensures RowAgrees(0x02, ROW_02)
  {
    RowFromTree(0x02, ROW_02, F(F(F(L(0x30), L(0x31)), F(L(0x32), L(0x61))), F(F(L(0x63), L(0x65)), F(L(0x69), L(0x6f)))));
  }

  lemma Row_03()
    ensures RowAgrees(0x03, ROW_03)
  {
    RowFromTree(0x03, ROW_03, F(F(L(0x30), L(0x31)), F(L(0x32), L(0x61))));
  }

  lemma Row_04()
    ensures RowAgrees(0x04, ROW_04)
  {
    RowFromTree(0x04, ROW_04, F(L(0x30), L(0x31)));
  }

  lemma Row_05()
    ensures RowAgrees(0x05, ROW_05)
  {
    RowFromTree(0x05, ROW_05, F(L(0x32), L(0x61)));
  }

  lemma Row_06()
    ensures RowAgrees(0x06, ROW_06)
  {
    RowFromTree(0x06, ROW_06, F(F(L(0x63), L(0x65)), F(L(0x69), L(0x6f))));
  }

  lemma Row_07()
    ensures RowAgrees(0x07, ROW_07)
  {
    RowFromTree(0x07, ROW_07, F(L(0x63), L(0x65)));
  }

  lemma Row_08()
    ensures RowAgrees(0x08, ROW_08)
  {
    RowFromTree(0x08, ROW_08, F(L(0x69), L(0x6f)));
  }

  lemma Row_09()
    ensures RowAgrees(0x09, ROW_09)
  {
    RowFromTree(0x09, ROW_09, F(F(F(L(0x73), L(0x74)), F(F(L(0x20), L(0x25)), F(L(0x2d), L(0x2e)))), F(F(F(L(0x2f), L(0x33)), F(L(0x34), L(0x35))), F(F(L(0x36), L(0x37)), F(L(0x38), L(0x39))))));
  }

  lemma Row_0a()
    ensures RowAgrees(0x0a, ROW_0a)
  {
    RowFromTree(0x0a, ROW_0a, F(F(L(0x73), L(0x74)), F(F(L(0x20), L(0x25)), F(L(0x2d), L(0x2e)))));
  }

  lemma Row_0b()
    ensures RowAgrees(0x0b, ROW_0b)
  {
    RowFromTree(0x0b, ROW_0b, F(L(0x73), L(0x74)));
  }

  lemma Row_0c()
    ensures RowAgrees(0x0c, ROW_0c)
  {
    RowFromTree(0x0c, ROW_0c, F(F(L(0x20), L(0x25)), F(L(0x2d), L(0x2e))));
  }

  lemma Row_0d()
    ensures RowAgrees(0x0d, ROW_0d)
  {
    RowFromTree(0x0d, ROW_0d, F(L(0x20), L(0x25)));
  }

  lemma Row_0e()
    ensures RowAgrees(0x0e, ROW_0e)
  {
    RowFromTree(0x0e, ROW_0e, F(L(0x2d), L(0x2e)));
  }

  lemma Row_0f()
    ensures RowAgrees(0x0f, ROW_0f)
  {
    RowFromTree(0x0f, ROW_0f, F(F(F(L(0x2f), L(0x33)), F(L(0x34), L(0x35))), F(F(L(0x36), L(0x37)), F(L(0x38), L(0x39)))));
  }

  lemma Row_10()
    ensures RowAgrees(0x10, ROW_10)
  {
    RowFromTree(0x10, ROW_10, F(F(L(0x2f), L(0x33)), F(L(0x34), L(0x35))));
  }

  lemma Row_11()
    ensures RowAgrees(0x11, ROW_11)
  {
    RowFromTree(0x11, ROW_11, F(L(0x2f), L(0x33)));
  }

  lemma Row_12()
    ensures RowAgrees(0x12, ROW_12)
  {
    RowFromTree(0x12, ROW_12, F(L(0x34), L(0x35)));
  }

  lemma Row_13()
    ensures RowAgrees(0x13, ROW_13)
  {
    RowFromTree(0x13, ROW_13, F(F(L(0x36), L(0x37)), F(L(0x38), L(0x39))));
  }

  lemma Row_14()
    ensures RowAgrees(0x14, ROW_14)
  {
    RowFromTree(0x14, ROW_14, F(L(0x36), L(0x37)));
  }

  lemma Row_15()
    ensures RowAgrees(0x15, ROW_15)
  {
    RowFromTree(0x15, ROW_15, F(L(0x38), L(0x39)));
  }

  lemma Row_16()
    ensures RowAgrees(0x16, ROW_16)
  {
    RowFromTree(0x16, ROW_16, F(F(F(F(S(0x1a), S(0x1b)), F(S(0x1d), S(0x1e))), F(F(S(0x21), S(0x22)), F(S(0x24), S(0x25)))), F(F(F(S(0x2b), S(0x2e)), F(S(0x32), S(0x35))), F(F(S(0x3a), S(0x3d)), F(S(0x41), S(0x44))))));
  }

  lemma Row_17()
    ensures RowAgrees(0x17, ROW_17)
  {
    RowFromTree(0x17, ROW_17, F(F(F(F(L(0x3d), L(0x41)), F(L(0x5f), L(0x62))), F(F(L(0x64), L(0x66)), F(L(0x67), L(0x68)))), F(F(F(L(0x6c), L(0x6d)), F(L(0x6e), L(0x70))), F(F(L(0x72), L(0x75)), F(S(0x26), S(0x27))))));
  }

  lemma Row_18()
    ensures RowAgrees(0x18, ROW_18)
  {
    RowFromTree(0x18, ROW_18, F(F(F(L(0x3d), L(0x41)), F(L(0x5f), L(0x62))), F(F(L(0x64), L(0x66)), F(L(0x67), L(0x68)))));
  }

  lemma Row_19()
    ensures RowAgrees(0x19, ROW_19)
  {
    RowFromTree(0x19, ROW_19, F(F(L(0x3d), L(0x41)), F(L(0x5f), L(0x62))));
  }

  lemma Row_1a()
    ensures RowAgrees(0x1a, ROW_1a)
  {
    RowFromTree(0x1a, ROW_1a, F(L(0x3d), L(0x41)));
  }

  lemma Row_1b()
    ensures RowAgrees(0x1b, ROW_1b)
  {
    RowFromTree(0x1b, ROW_1b, F(L(0x5f), L(0x62)));
  }

  lemma Row_1c()
    ensures RowAgrees(0x1c, ROW_1c)
  {
    RowFromTree(0x1c, ROW_1c, F(F(L(0x64), L(0x66)), F(L(0x67), L(0x68))));
  }

  lemma Row_1d()
    ensures RowAgrees(0x1d, ROW_1d)
  {
    RowFromTree(0x1d, ROW_1d, F(L(0x64), L(0x66)));
  }

  lemma Row_1e()
    ensures RowAgrees(0x1e, ROW_1e)
  {
    RowFromTree(0x1e, ROW_1e, F(L(0x67), L(0x68)));
  }

  lemma Row_1f()
    ensures RowAgrees(0x1f, ROW_1f)
  {
    RowFromTree(0x1f, ROW_1f, F(F(F(L(0x6c), L(0x6d)), F(L(0x6e), L(0x70))), F(F(L(0x72), L(0x75)), F(F(L(0x3a), L(0x42)), F(L(0x43), L(0x44))))));
  }

  lemma Row_20()
    ensures RowAgrees(0x20, ROW_20)
  {
    RowFromTree(0x20, ROW_20, F(F(L(0x6c), L(0x6d)), F(L(0x6e), L(0x70))));
  }

  lemma Row_21()
    ensures RowAgrees(0x21, ROW_21)
  {
    RowFromTree(0x21, ROW_21, F(L(0x6c), L(0x6d)));
  }

  lemma Row_22()
    ensures RowAgrees(0x22, ROW_22)
  {
    RowFromTree(0x22, ROW_22, F(L(0x6e), L(0x70)));
  }

  lemma Row_23()
    ensures RowAgrees(0x23, ROW_23)
  {
    RowFromTree(0x23, ROW_23, F(F(L(0x72), L(0x75)), F(F(L(0x3a), L(0x42)), F(L(0x43), L(0x44)))));
  }

  lemma Row_24()
    ensures RowAgrees(0x24, ROW_24)
  {
    RowFromTree(0x24, ROW_24, F(L(0x72), L(0x75)));
  }

  lemma Row_25()
    ensures RowAgrees(0x25, ROW_25)
  {
    RowFromTree(0x25, ROW_25, F(F(L(0x3a), L(0x42)), F(L(0x43), L(0x44))));
  }

  lemma Row_26()
    ensures RowAgrees(0x26, ROW_26)
  {
    RowFromTree(0x26, ROW_26, F(L(0x3a), L(0x42)));
  }

  lemma Row_27()
    ensures RowAgrees(0x27, ROW_27)
  {
    RowFromTree(0x27, ROW_27, F(L(0x43), L(0x44)));
  }

  lemma Row_28()
    ensures RowAgrees(0x28, ROW_28)
  {
    RowFromTree(0x28, ROW_28, F(F(F(F(S(0x2c), S(0x2d)), F(S(0x2f), S(0x30))), F(F(S(0x33), S(0x34)), F(S(0x36), S(0x37)))), F(F(F(S(0x3b), S(0x3c)), F(S(0x3e), S(0x3f))), F(F(S(0x42), S(0x43)), F(S(0x45), S(0x48))))));
  }

  lemma Row_29()
    ensures RowAgrees(0x29, ROW_29)
  {
    RowFromTree(0x29, ROW_29, F(F(F(F(L(0x45), L(0x46)), F(L(0x47), L(0x48))), F(F(L(0x49), L(0x4a)), F(L(0x4b), L(0x4c)))), F(F(F(L(0x4d), L(0x4e)), F(L(0x4f), L(0x50))), F(F(L(0x51), L(0x52)), F(L(0x53), L(0x54))))));
  }

  lemma Row_2a()
    ensures RowAgrees(0x2a, ROW_2a)
  {
    RowFromTree(0x2a, ROW_2a, F(F(F(L(0x45), L(0x46)), F(L(0x47), L(0x48))), F(F(L(0x49), L(0x4a)), F(L(0x4b), L(0x4c)))));
  }

  lemma Row_2b()
    ensures RowAgrees(0x2b, ROW_2b)
  {
    RowFromTree(0x2b, ROW_2b, F(F(L(0x45), L(0x46)), F(L(0x47), L(0x48))));
  }

  lemma Row_2c()
    ensures RowAgrees(0x2c, ROW_2c)
  {
    RowFromTree(0x2c, ROW_2c, F(L(0x45), L(0x46)));
  }

  lemma Row_2d()
    ensures RowAgrees(0x2d, ROW_2d)
  {
    RowFromTree(0x2d, ROW_2d, F(L(0x47), L(0x48)));
  }

  lemma Row_2e()
    ensures RowAgrees(0x2e, ROW_2e)
  {
    RowFromTree(0x2e, ROW_2e, F(F(L(0x49), L(0x4a)), F(L(0x4b), L(0x4c))));
  }

  lemma Row_2f()
    ensures RowAgrees(0x2f, ROW_2f)
  {
    RowFromTree(0x2f, ROW_2f, F(L(0x49), L(0x4a)));
  }

  lemma Row_30()
    ensures RowAgrees(0x30, ROW_30)
  {
    RowFromTree(0x30, ROW_30, F(L(0x4b), L(0x4c)));
  }

  lemma Row_31()
    ensures RowAgrees(0x31, ROW_31)
  {
    RowFromTree(0x31, ROW_31, F(F(F(L(0x4d), L(0x4e)), F(L(0x4f), L(0x50))), F(F(L(0x51), L(0x52)), F(L(0x53), L(0x54)))));
  }

  lemma Row_32()
    ensures RowAgrees(0x32, ROW_32)
  {
    RowFromTree(0x32, ROW_32, F(F(L(0x4d), L(0x4e)), F(L(0x4f), L(0x50))));
  }

  lemma Row_33()
    ensures RowAgrees(0x33, ROW_33)
  {
    RowFromTree(0x33, ROW_33, F(L(0x4d), L(0x4e)));
  }

  lemma Row_34()
    ensures RowAgrees(0x34, ROW_34)
  {
    RowFromTree(0x34, ROW_34, F(L(0x4f), L(0x50)));
  }

  lemma Row_35()
    ensures RowAgrees(0x35, ROW_35)
  {
    RowFromTree(0x35, ROW_35, F(F(L(0x51), L(0x52)), F(L(0x53), L(0x54))));
  }

  lemma Row_36()
    ensures RowAgrees(0x36, ROW_36)
  {
    RowFromTree(0x36, ROW_36, F(L(0x51), L(0x52)));
  }

  lemma Row_37()
    ensures RowAgrees(0x37, ROW_37)
  {
    RowFromTree(0x37, ROW_37, F(L(0x53), L(0x54)));
  }

  lemma Row_38()
    ensures RowAgrees(0x38, ROW_38)
  {
    RowFromTree(0x38, ROW_38, F(F(F(F(L(0x55), L(0x56)), F(L(0x57), L(0x59))), F(F(L(0x6a), L(0x6b)), F(L(0x71), L(0x76)))), F(F(F(L(0x77), L(0x78)), F(L(0x79), L(0x7a))), F(F(S(0x46), S(0x47)), F(S(0x49), S(0x4a))))));
  }

  lemma Row_39()
    ensures RowAgrees(0x39, ROW_39)
  {
    RowFromTree(0x39, ROW_39, F(F(F(L(0x55), L(0x56)), F(L(0x57), L(0x59))), F(F(L(0x6a), L(0x6b)), F(L(0x71), L(0x76)))));
  }

  lemma Row_3a()
    ensures RowAgrees(0x3a, ROW_3a)
  {
    RowFromTree(0x3a, ROW_3a, F(F(L(0x55), L(0x56)), F(L(0x57), L(0x59))));
  }

  lemma Row_3b()
    ensures RowAgrees(0x3b, ROW_3b)
  {
    RowFromTree(0x3b, ROW_3b, F(L(0x55), L(0x56)));
  }

  lemma Row_3c()
    ensures RowAgrees(0x3c, ROW_3c)
  {
    RowFromTree(0x3c, ROW_3c, F(L(0x57), L(0x59)));
  }

  lemma Row_3d()
    ensures RowAgrees(0x3d, ROW_3d)
  {
    RowFromTree(0x3d, ROW_3d, F(F(L(0x6a), L(0x6b)), F(L(0x71), L(0x76))));
  }

  lemma Row_3e()
    ensures RowAgrees(0x3e, ROW_3e)
  {
    RowFromTree(0x3e, ROW_3e, F(L(0x6a), L(0x6b)));
  }

  lemma Row_3f()
    ensures RowAgrees(0x3f, ROW_3f)
  {
    RowFromTree(0x3f, ROW_3f, F(L(0x71), L(0x76)));
  }

  lemma Row_40()
    ensures RowAgrees(0x40, ROW_40)
  {
    RowFromTree(0x40, ROW_40, F(F(F(L(0x77), L(0x78)), F(L(0x79), L(0x7a))), F(F(F(L(0x26), L(0x2a)), F(L(0x2c), L(0x3b))), F(F(L(0x58), L(0x5a)), F(S(0x4b), S(0x4e))))));
  }

  lemma Row_41()
    ensures RowAgrees(0x41, ROW_41)
  {
    RowFromTree(0x41, ROW_41, F(F(L(0x77), L(0x78)), F(L(0x79), L(0x7a))));
  }

  lemma Row_42()
    ensures RowAgrees(0x42, ROW_42)
  {
    RowFromTree(0x42, ROW_42, F(L(0x77), L(0x78)));
  }

  lemma Row_43()
    ensures RowAgrees(0x43, ROW_43)
  {
    RowFromTree(0x43, ROW_43, F(L(0x79), L(0x7a)));
  }

  lemma Row_44()
    ensures RowAgrees(0x44, ROW_44)
  {
    RowFromTree(0x44, ROW_44, F(F(F(L(0x26), L(0x2a)), F(L(0x2c), L(0x3b))), F(F(L(0x58), L(0x5a)), F(F(S(0x4c), S(0x4d)), F(S(0x4f), S(0x51))))));
  }

  lemma Row_45()
    ensures RowAgrees(0x45, ROW_45)
  {
    RowFromTree(0x45, ROW_45, F(F(L(0x26), L(0x2a)), F(L(0x2c), L(0x3b))));
  }

  lemma Row_46()
    ensures RowAgrees(0x46, ROW_46)
  {
    RowFromTree(0x46, ROW_46, F(L(0x26), L(0x2a)));
  }

  lemma Row_47()
    ensures RowAgrees(0x47, ROW_47)
  {
    RowFromTree(0x47, ROW_47, F(L(0x2c), L(0x3b)));
  }

  lemma Row_48()
    ensures RowAgrees(0x48, ROW_48)
  {
    RowFromTree(0x48, ROW_48, F(F(L(0x58), L(0x5a)), F(F(F(L(0x21), L(0x22)), F(L(0x28), L(0x29))), F(F(L(0x3f), S(0x50)), F(S(0x52), S(0x54))))));
  }

  lemma Row_49()
    ensures RowAgrees(0x49, ROW_49)
  {
    RowFromTree(0x49, ROW_49, F(L(0x58), L(0x5a)));
  }

  lemma Row_4a()
    ensures RowAgrees(0x4a, ROW_4a)
  {
    RowFromTree(0x4a, ROW_4a, F(F(F(L(0x21), L(0x22)), F(L(0x28), L(0x29))), F(F(L(0x3f), F(L(0x27), L(0x2b))), F(F(L(0x7c), S(0x53)), F(S(0x55), S(0x58))))));
  }

  lemma Row_4b()
    ensures RowAgrees(0x4b, ROW_4b)
  {
    RowFromTree(0x4b, ROW_4b, F(F(L(0x21), L(0x22)), F(L(0x28), L(0x29))));
  }

  lemma Row_4c()
    ensures RowAgrees(0x4c, ROW_4c)
  {
    RowFromTree(0x4c, ROW_4c, F(L(0x21), L(0x22)));
  }

  lemma Row_4d()
    ensures RowAgrees(0x4d, ROW_4d)
  {
    RowFromTree(0x4d, ROW_4d, F(L(0x28), L(0x29)));
  }

  lemma Row_4e()
    ensures RowAgrees(0x4e, ROW_4e)
  {
    RowFromTree(0x4e, ROW_4e, F(F(L(0x3f), F(L(0x27), L(0x2b))), F(F(L(0x7c), F(L(0x23), L(0x3e))), F(F(S(0x56), S(0x57)), F(S(0x59), S(0x5a))))));
  }

  lemma Row_4f()
    ensures RowAgrees(0x4f, ROW_4f)
  {
    RowFromTree(0x4f, ROW_4f, F(L(0x3f), F(L(0x27), L(0x2b))));
  }

  lemma Row_50()
    ensures RowAgrees(0x50, ROW_50)
  {
    RowFromTree(0x50, ROW_50, F(L(0x27), L(0x2b)));
  }

  lemma Row_51()
    ensures RowAgrees(0x51, ROW_51)
  {
    RowFromTree(0x51, ROW_51, F(F(L(0x7c), F(L(0x23), L(0x3e))), F(F(F(L(0x00), L(0x24)), F(L(0x40), L(0x5b))), F(F(L(0x5d), L(0x7e)), F(S(0x5b), S(0x5c))))));
  }

  lemma Row_52()
    ensures RowAgrees(0x52, ROW_52)
  {
    RowFromTree(0x52, ROW_52, F(L(0x7c), F(L(0x23), L(0x3e))));
  }

  lemma Row_53()
    ensures RowAgrees(0x53, ROW_53)
  {
    RowFromTree(0x53, ROW_53, F(L(0x23), L(0x3e)));
  }

  lemma Row_54()
    ensures RowAgrees(0x54, ROW_54)
  {
    RowFromTree(0x54, ROW_54, F(F(F(L(0x00), L(0x24)), F(L(0x40), L(0x5b))), F(F(L(0x5d), L(0x7e)), F(F(L(0x5e), L(0x7d)), F(S(0x5d), S(0x5e))))));
  }

  lemma Row_55()
    ensures RowAgrees(0x55, ROW_55)
  {
    RowFromTree(0x55, ROW_55, F(F(L(0x00), L(0x24)), F(L(0x40), L(0x5b))));
  }

  lemma Row_56()
    ensures RowAgrees(0x56, ROW_56)
  {
    RowFromTree(0x56, ROW_56, F(L(0x00), L(0x24)));
  }

  lemma Row_57()
    ensures RowAgrees(0x57, ROW_57)
  {
    RowFromTree(0x57, ROW_57, F(L(0x40), L(0x5b)));
  }

  lemma Row_58()
    ensures RowAgrees(0x58, ROW_58)
  {
    RowFromTree(0x58, ROW_58, F(F(L(0x5d), L(0x7e)), F(F(L(0x5e), L(0x7d)), F(F(L(0x3c), L(0x60)), F(L(0x7b), S(0x5f))))));
  }

  lemma Row_59()
    ensures RowAgrees(0x59, ROW_59)
  {
    RowFromTree(0x59, ROW_59, F(L(0x5d), L(0x7e)));
  }

  lemma Row_5a()
    ensures RowAgrees(0x5a, ROW_5a)
  {
    RowFromTree(0x5a, ROW_5a, F(F(L(0x5e), L(0x7d)), F(F(L(0x3c), L(0x60)), F(L(0x7b), F(S(0x60), S(0x6e))))));
  }

  lemma Row_5b()
    ensures RowAgrees(0x5b, ROW_5b)
  {
    RowFromTree(0x5b, ROW_5b, F(L(0x5e), L(0x7d)));
  }

  lemma Row_5c()
    ensures RowAgrees(0x5c, ROW_5c)
  {
    RowFromTree(0x5c, ROW_5c, F(F(L(0x3c), L(0x60)), F(L(0x7b), F(F(S(0x61), S(0x65)), F(S(0x6f), S(0x85))))));
  }

  lemma Row_5d()
    ensures RowAgrees(0x5d, ROW_5d)
  {
    RowFromTree(0x5d, ROW_5d, F(L(0x3c), L(0x60)));
  }

  lemma Row_5e()
    ensures RowAgrees(0x5e, ROW_5e)
  {
    RowFromTree(0x5e, ROW_5e, F(L(0x7b), F(F(F(S(0x62), S(0x63)), F(S(0x66), S(0x69))), F(F(S(0x70), S(0x77)), F(S(0x86), S(0x99))))));
  }

  lemma Row_5f()
    ensures RowAgrees(0x5f, ROW_5f)
  {
    RowFromTree(0x5f, ROW_5f, F(F(F(F(L(0x5c), L(0xc3)), F(L(0xd0), S(0x64))), F(F(S(0x67), S(0x68)), F(S(0x6a), S(0x6b)))), F(F(F(S(0x71), S(0x74)), F(S(0x78), S(0x7e))), F(F(S(0x87), S(0x8e)), F(S(0x9a), S(0xa9))))));
  }

  lemma Row_60()
    ensures RowAgrees(0x60, ROW_60)
  {
    RowFromTree(0x60, ROW_60, F(F(F(L(0x5c), L(0xc3)), F(L(0xd0), F(L(0x80), L(0x82)))), F(F(F(L(0x83), L(0xa2)), F(L(0xb8), L(0xc2))), F(F(L(0xe0), L(0xe2)), F(S(0x6c), S(0x6d))))));
  }

  lemma Row_61()
    ensures RowAgrees(0x61, ROW_61)
  {
    RowFromTree(0x61, ROW_61, F(F(L(0x5c), L(0xc3)), F(L(0xd0), F(L(0x80), L(0x82)))));
  }

  lemma Row_62()
    ensures RowAgrees(0x62, ROW_62)
  {
    RowFromTree(0x62, ROW_62, F(L(0x5c), L(0xc3)));
  }

  lemma Row_63()
    ensures RowAgrees(0x63, ROW_63)
  {
    RowFromTree(0x63, ROW_63, F(L(0xd0), F(L(0x80), L(0x82))));
  }

  lemma Row_64()
    ensures RowAgrees(0x64, ROW_64)
  {
    RowFromTree(0x64, ROW_64, F(L(0x80), L(0x82)));
  }

  lemma Row_65()
    ensures RowAgrees(0x65, ROW_65)
  {
    RowFromTree(0x65, ROW_65, F(F(F(L(0x83), L(0xa2)), F(L(0xb8), L(0xc2))), F(F(L(0xe0), L(0xe2)), F(F(L(0x99), L(0xa1)), F(L(0xa7), L(0xac))))));
  }

  lemma Row_66()
    ensures RowAgrees(0x66, ROW_66)
  {
    RowFromTree(0x66, ROW_66, F(F(L(0x83), L(0xa2)), F(L(0xb8), L(0xc2))));
  }

  lemma Row_67()
    ensures RowAgrees(0x67, ROW_67)
  {
    RowFromTree(0x67, ROW_67, F(L(0x83), L(0xa2)));
  }

  lemma Row_68()
    ensures RowAgrees(0x68, ROW_68)
  {
    RowFromTree(0x68, ROW_68, F(L(0xb8), L(0xc2)));
  }

  lemma Row_69()
    ensures RowAgrees(0x69, ROW_69)
  {
    RowFromTree(0x69, ROW_69, F(F(L(0xe0), L(0xe2)), F(F(L(0x99), L(0xa1)), F(L(0xa7), L(0xac)))));
  }

  lemma Row_6a()
    ensures RowAgrees(0x6a, ROW_6a)
  {
    RowFromTree(0x6a, ROW_6a, F(L(0xe0), L(0xe2)));
  }

  lemma Row_6b()
    ensures RowAgrees(0x6b, ROW_6b)
  {
    RowFromTree(0x6b, ROW_6b, F(F(L(0x99), L(0xa1)), F(L(0xa7), L(0xac))));
  }

  lemma Row_6c()
    ensures RowAgrees(0x6c, ROW_6c)
  {
    RowFromTree(0x6c, ROW_6c, F(L(0x99), L(0xa1)));
  }

  lemma Row_6d()
    ensures RowAgrees(0x6d, ROW_6d)
  {
    RowFromTree(0x6d, ROW_6d, F(L(0xa7), L(0xac)));
  }

  lemma Row_6e()
    ensures RowAgrees(0x6e, ROW_6e)
  {
    RowFromTree(0x6e, ROW_6e, F(F(F(F(S(0x72), S(0x73)), F(S(0x75), S(0x76))), F(F(S(0x79), S(0x7b)), F(S(0x7f), S(0x82)))), F(F(F(S(0x88), S(0x8b)), F(S(0x8f), S(0x92))), F(F(S(0x9b), S(0xa2)), F(S(0xaa), S(0xb4))))));
  }

  lemma Row_6f()
    ensures RowAgrees(0x6f, ROW_6f)
  {
    RowFromTree(0x6f, ROW_6f, F(F(F(F(L(0xb0), L(0xb1)), F(L(0xb3), L(0xd1))), F(F(L(0xd8), L(0xd9)), F(L(0xe3), L(0xe5)))), F(F(F(L(0xe6), S(0x7a)), F(S(0x7c), S(0x7d))), F(F(S(0x80), S(0x81)), F(S(0x83), S(0x84))))));
  }

  lemma Row_70()
    ensures RowAgrees(0x70, ROW_70)
  {
    RowFromTree(0x70, ROW_70, F(F(F(L(0xb0), L(0xb1)), F(L(0xb3), L(0xd1))), F(F(L(0xd8), L(0xd9)), F(L(0xe3), L(0xe5)))));
  }

  lemma Row_71()
    ensures RowAgrees(0x71, ROW_71)
  {
    RowFromTree(0x71, ROW_71, F(F(L(0xb0), L(0xb1)), F(L(0xb3), L(0xd1))));
  }

  lemma Row_72()
    ensures RowAgrees(0x72, ROW_72)
  {
    RowFromTree(0x72, ROW_72, F(L(0xb0), L(0xb1)));
  }

  lemma Row_73()
    ensures RowAgrees(0x73, ROW_73)
  {
    RowFromTree(0x73, ROW_73, F(L(0xb3), L(0xd1)));
  }

  lemma Row_74()
    ensures RowAgrees(0x74, ROW_74)
  {
    RowFromTree(0x74, ROW_74, F(F(L(0xd8), L(0xd9)), F(L(0xe3), L(0xe5))));
  }

  lemma Row_75()
    ensures RowAgrees(0x75, ROW_75)
  {
    RowFromTree(0x75, ROW_75, F(L(0xd8), L(0xd9)));
  }

  lemma Row_76()
    ensures RowAgrees(0x76, ROW_76)
  {
    RowFromTree(0x76, ROW_76, F(L(0xe3), L(0xe5)));
  }

  lemma Row_77()
    ensures RowAgrees(0x77, ROW_77)
  {
    RowFromTree(0x77, ROW_77, F(F(F(L(0xe6), F(L(0x81), L(0x84))), F(F(L(0x85), L(0x86)), F(L(0x88), L(0x92)))), F(F(F(L(0x9a), L(0x9c)), F(L(0xa0), L(0xa3))), F(F(L(0xa4), L(0xa9)), F(L(0xaa), L(0xad))))));
  }

  lemma Row_78()
    ensures RowAgrees(0x78, ROW_78)
  {
    RowFromTree(0x78, ROW_78, F(F(L(0xe6), F(L(0x81), L(0x84))), F(F(L(0x85), L(0x86)), F(L(0x88), L(0x92)))));
  }

  lemma Row_79()
    ensures RowAgrees(0x79, ROW_79)
  {
    RowFromTree(0x79, ROW_79, F(L(0xe6), F(L(0x81), L(0x84))));
  }

  lemma Row_7a()
    ensures RowAgrees(0x7a, ROW_7a)
  {
    RowFromTree(0x7a, ROW_7a, F(L(0x81), L(0x84)));
  }

  lemma Row_7b()
    ensures RowAgrees(0x7b, ROW_7b)
  {
    RowFromTree(0x7b, ROW_7b, F(F(L(0x85), L(0x86)), F(L(0x88), L(0x92))));
  }

  lemma Row_7c()
    ensures RowAgrees(0x7c, ROW_7c)
  {
    RowFromTree(0x7c, ROW_7c, F(L(0x85), L(0x86)));
  }

  lemma Row_7d()
    ensures RowAgrees(0x7d, ROW_7d)
  {
    RowFromTree(0x7d, ROW_7d, F(L(0x88), L(0x92)));
  }

  lemma Row_7e()
    ensures RowAgrees(0x7e, ROW_7e)
  {
    RowFromTree(0x7e, ROW_7e, F(F(F(L(0x9a), L(0x9c)), F(L(0xa0), L(0xa3))), F(F(L(0xa4), L(0xa9)), F(L(0xaa), L(0xad)))));
  }

  lemma Row_7f()
    ensures RowAgrees(0x7f, ROW_7f)
  {
    RowFromTree(0x7f, ROW_7f, F(F(L(0x9a), L(0x9c)), F(L(0xa0), L(0xa3))));
  }

  lemma Row_80()
    ensures RowAgrees(0x80, ROW_80)
  {
    RowFromTree(0x80, ROW_80, F(L(0x9a), L(0x9c)));
  }

  lemma Row_81()
    ensures RowAgrees(0x81, ROW_81)
  {
    RowFromTree(0x81, ROW_81, F(L(0xa0), L(0xa3)));
  }

  lemma Row_82()
    ensures RowAgrees(0x82, ROW_82)
  {
    RowFromTree(0x82, ROW_82, F(F(L(0xa4), L(0xa9)), F(L(0xaa), L(0xad))));
  }

  lemma Row_83()
    ensures RowAgrees(0x83, ROW_83)
  {
    RowFromTree(0x83, ROW_83, F(L(0xa4), L(0xa9)));
  }

  lemma Row_84()
    ensures RowAgrees(0x84, ROW_84)
  {
    RowFromTree(0x84, ROW_84, F(L(0xaa), L(0xad)));
  }

  lemma Row_85()
    ensures RowAgrees(0x85, ROW_85)
  {
    RowFromTree(0x85, ROW_85, F(F(F(F(S(0x89), S(0x8a)), F(S(0x8c), S(0x8d))), F(F(S(0x90), S(0x91)), F(S(0x93), S(0x96)))), F(F(F(S(0x9c), S(0x9f)), F(S(0xa3), S(0xa6))), F(F(S(0xab), S(0xae)), F(S(0xb5), S(0xbe))))));
  }

  lemma Row_86()
    ensures RowAgrees(0x86, ROW_86)
  {
    RowFromTree(0x86, ROW_86, F(F(F(F(L(0xb2), L(0xb5)), F(L(0xb9), L(0xba))), F(F(L(0xbb), L(0xbd)), F(L(0xbe), L(0xc4)))), F(F(F(L(0xc6), L(0xe4)), F(L(0xe8), L(0xe9))), F(F(S(0x94), S(0x95)), F(S(0x97), S(0x98))))));
  }

  lemma Row_87()
    ensures RowAgrees(0x87, ROW_87)
  {
    RowFromTree(0x87, ROW_87, F(F(F(L(0xb2), L(0xb5)), F(L(0xb9), L(0xba))), F(F(L(0xbb), L(0xbd)), F(L(0xbe), L(0xc4)))));
  }

  lemma Row_88()
    ensures RowAgrees(0x88, ROW_88)
  {
    RowFromTree(0x88, ROW_88, F(F(L(0xb2), L(0xb5)), F(L(0xb9), L(0xba))));
  }

  lemma Row_89()
    ensures RowAgrees(0x89, ROW_89)
  {
    RowFromTree(0x89, ROW_89, F(L(0xb2), L(0xb5)));
  }

  lemma Row_8a()
    ensures RowAgrees(0x8a, ROW_8a)
  {
    RowFromTree(0x8a, ROW_8a, F(L(0xb9), L(0xba)));
  }

  lemma Row_8b()
    ensures RowAgrees(0x8b, ROW_8b)
  {
    RowFromTree(0x8b, ROW_8b, F(F(L(0xbb), L(0xbd)), F(L(0xbe), L(0xc4))));
  }

  lemma Row_8c()
    ensures RowAgrees(0x8c, ROW_8c)
  {
    RowFromTree(0x8c, ROW_8c, F(L(0xbb), L(0xbd)));
  }

  lemma Row_8d()
    ensures RowAgrees(0x8d, ROW_8d)
  {
    RowFromTree(0x8d, ROW_8d, F(L(0xbe), L(0xc4)));
  }

  lemma Row_8e()
    ensures RowAgrees(0x8e, ROW_8e)
  {
    RowFromTree(0x8e, ROW_8e, F(F(F(L(0xc6), L(0xe4)), F(L(0xe8), L(0xe9))), F(F(F(L(0x01), L(0x87)), F(L(0x89), L(0x8a))), F(F(L(0x8b), L(0x8c)), F(L(0x8d), L(0x8f))))));
  }

  lemma Row_8f()
    ensures RowAgrees(0x8f, ROW_8f)
  {
    RowFromTree(0x8f, ROW_8f, F(F(L(0xc6), L(0xe4)), F(L(0xe8), L(0xe9))));
  }

  lemma Row_90()
    ensures RowAgrees(0x90, ROW_90)
  {
    RowFromTree(0x90, ROW_90, F(L(0xc6), L(0xe4)));
  }

  lemma Row_91()
    ensures RowAgrees(0x91, ROW_91)
  {
    RowFromTree(0x91, ROW_91, F(L(0xe8), L(0xe9)));
  }

  lemma Row_92()
    ensures RowAgrees(0x92, ROW_92)
  {
    RowFromTree(0x92, ROW_92, F(F(F(L(0x01), L(0x87)), F(L(0x89), L(0x8a))), F(F(L(0x8b), L(0x8c)), F(L(0x8d), L(0x8f)))));
  }

  lemma Row_93()
    ensures RowAgrees(0x93, ROW_93)
  {
    RowFromTree(0x93, ROW_93, F(F(L(0x01), L(0x87)), F(L(0x89), L(0x8a))));
  }

  lemma Row_94()
    ensures RowAgrees(0x94, ROW_94)
  {
    RowFromTree(0x94, ROW_94, F(L(0x01), L(0x87)));
  }

  lemma Row_95()
    ensures RowAgrees(0x95, ROW_95)
  {
    RowFromTree(0x95, ROW_95, F(L(0x89), L(0x8a)));
  }

  lemma Row_96()
    ensures RowAgrees(0x96, ROW_96)
  {
    RowFromTree(0x96, ROW_96, F(F(L(0x8b), L(0x8c)), F(L(0x8d), L(0x8f))));
  }

  lemma Row_97()
    ensures RowAgrees(0x97, ROW_97)
  {
    RowFromTree(0x97, ROW_97, F(L(0x8b), L(0x8c)));
  }

  lemma Row_98()
    ensures RowAgrees(0x98, ROW_98)
  {
    RowFromTree(0x98, ROW_98, F(L(0x8d), L(0x8f)));
  }

  lemma Row_99()
    ensures RowAgrees(0x99, ROW_99)
  {
    RowFromTree(0x99, ROW_99, F(F(F(F(S(0x9d), S(0x9e)), F(S(0xa0), S(0xa1))), F(F(S(0xa4), S(0xa5)), F(S(0xa7), S(0xa8)))), F(F(F(S(0xac), S(0xad)), F(S(0xaf), S(0xb1))), F(F(S(0xb6), S(0xb9)), F(S(0xbf), S(0xcf))))));
  }

  lemma Row_9a()
    ensures RowAgrees(0x9a, ROW_9a)
  {
    RowFromTree(0x9a, ROW_9a, F(F(F(F(L(0x93), L(0x95)), F(L(0x96), L(0x97))), F(F(L(0x98), L(0x9b)), F(L(0x9d), L(0x9e)))), F(F(F(L(0xa5), L(0xa6)), F(L(0xa8), L(0xae))), F(F(L(0xaf), L(0xb4)), F(L(0xb6), L(0xb7))))));
  }

  lemma Row_9b()
    ensures RowAgrees(0x9b, ROW_9b)
  {
    RowFromTree(0x9b, ROW_9b, F(F(F(L(0x93), L(0x95)), F(L(0x96), L(0x97))), F(F(L(0x98), L(0x9b)), F(L(0x9d), L(0x9e)))));
  }

  lemma Row_9c()
    ensures RowAgrees(0x9c, ROW_9c)
  {
    RowFromTree(0x9c, ROW_9c, F(F(L(0x93), L(0x95)), F(L(0x96), L(0x97))));
  }

  lemma Row_9d()
    ensures RowAgrees(0x9d, ROW_9d)
  {
    RowFromTree(0x9d, ROW_9d, F(L(0x93), L(0x95)));
  }

  lemma Row_9e()
    ensures RowAgrees(0x9e, ROW_9e)
  {
    RowFromTree(0x9e, ROW_9e, F(L(0x96), L(0x97)));
  }

  lemma Row_9f()
    ensures RowAgrees(0x9f, ROW_9f)
  {
    RowFromTree(0x9f, ROW_9f, F(F(L(0x98), L(0x9b)), F(L(0x9d), L(0x9e))));
  }

  lemma Row_a0()
    ensures RowAgrees(0xa0, ROW_a0)
  {
    RowFromTree(0xa0, ROW_a0, F(L(0x98), L(0x9b)));
  }

  lemma Row_a1()
    ensures RowAgrees(0xa1, ROW_a1)
  {
    RowFromTree(0xa1, ROW_a1, F(L(0x9d), L(0x9e)));
  }

  lemma Row_a2()
    ensures RowAgrees(0xa2, ROW_a2)
  {
    RowFromTree(0xa2, ROW_a2, F(F(F(L(0xa5), L(0xa6)), F(L(0xa8), L(0xae))), F(F(L(0xaf), L(0xb4)), F(L(0xb6), L(0xb7)))));
  }

  lemma Row_a3()
    ensures RowAgrees(0xa3, ROW_a3)
  {
    RowFromTree(0xa3, ROW_a3, F(F(L(0xa5), L(0xa6)), F(L(0xa8), L(0xae))));
  }

  lemma Row_a4()
    ensures RowAgrees(0xa4, ROW_a4)
  {
    RowFromTree(0xa4, ROW_a4, F(L(0xa5), L(0xa6)));
  }

  lemma Row_a5()
    ensures RowAgrees(0xa5, ROW_a5)
  {
    RowFromTree(0xa5, ROW_a5, F(L(0xa8), L(0xae)));
  }

  lemma Row_a6()
    ensures RowAgrees(0xa6, ROW_a6)
  {
    RowFromTree(0xa6, ROW_a6, F(F(L(0xaf), L(0xb4)), F(L(0xb6), L(0xb7))));
  }

  lemma Row_a7()
    ensures RowAgrees(0xa7, ROW_a7)
  {
    RowFromTree(0xa7, ROW_a7, F(L(0xaf), L(0xb4)));
  }

  lemma Row_a8()
    ensures RowAgrees(0xa8, ROW_a8)
  {
    RowFromTree(0xa8, ROW_a8, F(L(0xb6), L(0xb7)));
  }

  lemma Row_a9()
    ensures RowAgrees(0xa9, ROW_a9)
  {
    RowFromTree(0xa9, ROW_a9, F(F(F(F(L(0xbc), L(0xbf)), F(L(0xc5), L(0xe7))), F(F(L(0xef), S(0xb0)), F(S(0xb2), S(0xb3)))), F(F(F(S(0xb7), S(0xb8)), F(S(0xba), S(0xbb))), F(F(S(0xc0), S(0xc7)), F(S(0xd0), S(0xdf))))));
  }

  lemma Row_aa()
    ensures RowAgrees(0xaa, ROW_aa)
  {
    RowFromTree(0xaa, ROW_aa, F(F(F(L(0xbc), L(0xbf)), F(L(0xc5), L(0xe7))), F(F(L(0xef), F(L(0x09), L(0x8e))), F(F(L(0x90), L(0x91)), F(L(0x94), L(0x9f))))));
  }

  lemma Row_ab()
    ensures RowAgrees(0xab, ROW_ab)
  {
    RowFromTree(0xab, ROW_ab, F(F(L(0xbc), L(0xbf)), F(L(0xc5), L(0xe7))));
  }

  lemma Row_ac()
    ensures RowAgrees(0xac, ROW_ac)
  {
    RowFromTree(0xac, ROW_ac, F(L(0xbc), L(0xbf)));
  }

  lemma Row_ad()
    ensures RowAgrees(0xad, ROW_ad)
  {
    RowFromTree(0xad, ROW_ad, F(L(0xc5), L(0xe7)));
  }

  lemma Row_ae()
    ensures RowAgrees(0xae, ROW_ae)
  {
    RowFromTree(0xae, ROW_ae, F(F(L(0xef), F(L(0x09), L(0x8e))), F(F(L(0x90), L(0x91)), F(L(0x94), L(0x9f)))));
  }

  lemma Row_af()
    ensures RowAgrees(0xaf, ROW_af)
  {
    RowFromTree(0xaf, ROW_af, F(L(0xef), F(L(0x09), L(0x8e))));
  }

  lemma Row_b0()
    ensures RowAgrees(0xb0, ROW_b0)
  {
    RowFromTree(0xb0, ROW_b0, F(L(0x09), L(0x8e)));
  }

  lemma Row_b1()
    ensures RowAgrees(0xb1, ROW_b1)
  {
    RowFromTree(0xb1, ROW_b1, F(F(L(0x90), L(0x91)), F(L(0x94), L(0x9f))));
  }

  lemma Row_b2()
    ensures RowAgrees(0xb2, ROW_b2)
  {
    RowFromTree(0xb2, ROW_b2, F(L(0x90), L(0x91)));
  }

  lemma Row_b3()
    ensures RowAgrees(0xb3, ROW_b3)
  {
    RowFromTree(0xb3, ROW_b3, F(L(0x94), L(0x9f)));
  }

  lemma Row_b4()
    ensures RowAgrees(0xb4, ROW_b4)
  {
    RowFromTree(0xb4, ROW_b4, F(F(F(F(L(0xab), L(0xce)), F(L(0xd7), L(0xe1))), F(F(L(0xec), L(0xed)), F(S(0xbc), S(0xbd)))), F(F(F(S(0xc1), S(0xc4)), F(S(0xc8), S(0xcb))), F(F(S(0xd1), S(0xd8)), F(S(0xe0), S(0xee))))));
  }

  lemma Row_b5()
    ensures RowAgrees(0xb5, ROW_b5)
  {
    RowFromTree(0xb5, ROW_b5, F(F(F(L(0xab), L(0xce)), F(L(0xd7), L(0xe1))), F(F(L(0xec), L(0xed)), F(F(L(0xc7), L(0xcf)), F(L(0xea), L(0xeb))))));
  }

  lemma Row_b6()
    ensures RowAgrees(0xb6, ROW_b6)
  {
    RowFromTree(0xb6, ROW_b6, F(F(L(0xab), L(0xce)), F(L(0xd7), L(0xe1))));
  }

  lemma Row_b7()
    ensures RowAgrees(0xb7, ROW_b7)
  {
    RowFromTree(0xb7, ROW_b7, F(L(0xab), L(0xce)));
  }

  lemma Row_b8()
    ensures RowAgrees(0xb8, ROW_b8)
  {
    RowFromTree(0xb8, ROW_b8, F(L(0xd7), L(0xe1)));
  }

  lemma Row_b9()
    ensures RowAgrees(0xb9, ROW_b9)
  {
    RowFromTree(0xb9, ROW_b9, F(F(L(0xec), L(0xed)), F(F(L(0xc7), L(0xcf)), F(L(0xea), L(0xeb)))));
  }

  lemma Row_ba()
    ensures RowAgrees(0xba, ROW_ba)
  {
    RowFromTree(0xba, ROW_ba, F(L(0xec), L(0xed)));
  }

  lemma Row_bb()
    ensures RowAgrees(0xbb, ROW_bb)
  {
    RowFromTree(0xbb, ROW_bb, F(F(L(0xc7), L(0xcf)), F(L(0xea), L(0xeb))));
  }

  lemma Row_bc()
    ensures RowAgrees(0xbc, ROW_bc)
  {
    RowFromTree(0xbc, ROW_bc, F(L(0xc7), L(0xcf)));
  }

  lemma Row_bd()
    ensures RowAgrees(0xbd, ROW_bd)
  {
    RowFromTree(0xbd, ROW_bd, F(L(0xea), L(0xeb)));
  }

  lemma Row_be()
    ensures RowAgrees(0xbe, ROW_be)
  {
    RowFromTree(0xbe, ROW_be, F(F(F(F(S(0xc2), S(0xc3)), F(S(0xc5), S(0xc6))), F(F(S(0xc9), S(0xca)), F(S(0xcc), S(0xcd)))), F(F(F(S(0xd2), S(0xd5)), F(S(0xd9), S(0xdc))), F(F(S(0xe1), S(0xe7)), F(S(0xef), S(0xf6))))));
  }

  lemma Row_bf()
    ensures RowAgrees(0xbf, ROW_bf)
  {
    RowFromTree(0xbf, ROW_bf, F(F(F(F(L(0xc0), L(0xc1)), F(L(0xc8), L(0xc9))), F(F(L(0xca), L(0xcd)), F(L(0xd2), L(0xd5)))), F(F(F(L(0xda), L(0xdb)), F(L(0xee), L(0xf0))), F(F(L(0xf2), L(0xf3)), F(L(0xff), S(0xce))))));
  }

  lemma Row_c0()
    ensures RowAgrees(0xc0, ROW_c0)
  {
    RowFromTree(0xc0, ROW_c0, F(F(F(L(0xc0), L(0xc1)), F(L(0xc8), L(0xc9))), F(F(L(0xca), L(0xcd)), F(L(0xd2), L(0xd5)))));
  }

  lemma Row_c1()
    ensures RowAgrees(0xc1, ROW_c1)
  {
    RowFromTree(0xc1, ROW_c1, F(F(L(0xc0), L(0xc1)), F(L(0xc8), L(0xc9))));
  }

  lemma Row_c2()
    ensures RowAgrees(0xc2, ROW_c2)
  {
    RowFromTree(0xc2, ROW_c2, F(L(0xc0), L(0xc1)));
  }

  lemma Row_c3()
    ensures RowAgrees(0xc3, ROW_c3)
  {
    RowFromTree(0xc3, ROW_c3, F(L(0xc8), L(0xc9)));
  }

  lemma Row_c4()
    ensures RowAgrees(0xc4, ROW_c4)
  {
    RowFromTree(0xc4, ROW_c4, F(F(L(0xca), L(0xcd)), F(L(0xd2), L(0xd5))));
  }

  lemma Row_c5()
    ensures RowAgrees(0xc5, ROW_c5)
  {
    RowFromTree(0xc5, ROW_c5, F(L(0xca), L(0xcd)));
  }

  lemma Row_c6()
    ensures RowAgrees(0xc6, ROW_c6)
  {
    RowFromTree(0xc6, ROW_c6, F(L(0xd2), L(0xd5)));
  }

  lemma Row_c7()
    ensures RowAgrees(0xc7, ROW_c7)
  {
    RowFromTree(0xc7, ROW_c7, F(F(F(L(0xda), L(0xdb)), F(L(0xee), L(0xf0))), F(F(L(0xf2), L(0xf3)), F(L(0xff), F(L(0xcb), L(0xcc))))));
  }

  lemma Row_c8()
    ensures RowAgrees(0xc8, ROW_c8)
  {
    RowFromTree(0xc8, ROW_c8, F(F(L(0xda), L(0xdb)), F(L(0xee), L(0xf0))));
  }

  lemma Row_c9()
    ensures RowAgrees(0xc9, ROW_c9)
  {
    RowFromTree(0xc9, ROW_c9, F(L(0xda), L(0xdb)));
  }

  lemma Row_ca()
    ensures RowAgrees(0xca, ROW_ca)
  {
    RowFromTree(0xca, ROW_ca, F(L(0xee), L(0xf0)));
  }

  lemma Row_cb()
    ensures RowAgrees(0xcb, ROW_cb)
  {
    RowFromTree(0xcb, ROW_cb, F(F(L(0xf2), L(0xf3)), F(L(0xff), F(L(0xcb), L(0xcc)))));
  }

  lemma Row_cc()
    ensures RowAgrees(0xcc, ROW_cc)
  {
    RowFromTree(0xcc, ROW_cc, F(L(0xf2), L(0xf3)));
  }

  lemma Row_cd()
    ensures RowAgrees(0xcd, ROW_cd)
  {
    RowFromTree(0xcd, ROW_cd, F(L(0xff), F(L(0xcb), L(0xcc))));
  }

  lemma Row_ce()
    ensures RowAgrees(0xce, ROW_ce)
  {
    RowFromTree(0xce, ROW_ce, F(L(0xcb), L(0xcc)));
  }

  lemma Row_cf()
    ensures RowAgrees(0xcf, ROW_cf)
  {
    RowFromTree(0xcf, ROW_cf, F(F(F(F(S(0xd3), S(0xd4)), F(S(0xd6), S(0xd7))), F(F(S(0xda), S(0xdb)), F(S(0xdd), S(0xde)))), F(F(F(S(0xe2), S(0xe4)), F(S(0xe8), S(0xeb))), F(F(S(0xf0), S(0xf3)), F(S(0xf7), S(0xfa))))));
  }

  lemma Row_d0()
    ensures RowAgrees(0xd0, ROW_d0)
  {
    RowFromTree(0xd0, ROW_d0, F(F(F(F(L(0xd3), L(0xd4)), F(L(0xd6), L(0xdd))), F(F(L(0xde), L(0xdf)), F(L(0xf1), L(0xf4)))), F(F(F(L(0xf5), L(0xf6)), F(L(0xf7), L(0xf8))), F(F(L(0xfa), L(0xfb)), F(L(0xfc), L(0xfd))))));
  }

  lemma Row_d1()
    ensures RowAgrees(0xd1, ROW_d1)
  {
    RowFromTree(0xd1, ROW_d1, F(F(F(L(0xd3), L(0xd4)), F(L(0xd6), L(0xdd))), F(F(L(0xde), L(0xdf)), F(L(0xf1), L(0xf4)))));
  }

  lemma Row_d2()
    ensures RowAgrees(0xd2, ROW_d2)
  {
    RowFromTree(0xd2, ROW_d2, F(F(L(0xd3), L(0xd4)), F(L(0xd6), L(0xdd))));
  }

  lemma Row_d3()
    ensures RowAgrees(0xd3, ROW_d3)
  {
    RowFromTree(0xd3, ROW_d3, F(L(0xd3), L(0xd4)));
  }

  lemma Row_d4()
    ensures RowAgrees(0xd4, ROW_d4)
  {
    RowFromTree(0xd4, ROW_d4, F(L(0xd6), L(0xdd)));
  }

  lemma Row_d5()
    ensures RowAgrees(0xd5, ROW_d5)
  {
    RowFromTree(0xd5, ROW_d5, F(F(L(0xde), L(0xdf)), F(L(0xf1), L(0xf4))));
  }

  lemma Row_d6()
    ensures RowAgrees(0xd6, ROW_d6)
  {
    RowFromTree(0xd6, ROW_d6, F(L(0xde), L(0xdf)));
  }

  lemma Row_d7()
    ensures RowAgrees(0xd7, ROW_d7)
  {
    RowFromTree(0xd7, ROW_d7, F(L(0xf1), L(0xf4)));
  }

  lemma Row_d8()
    ensures RowAgrees(0xd8, ROW_d8)
  {
    RowFromTree(0xd8, ROW_d8, F(F(F(L(0xf5), L(0xf6)), F(L(0xf7), L(0xf8))), F(F(L(0xfa), L(0xfb)), F(L(0xfc), L(0xfd)))));
  }

  lemma Row_d9()
    ensures RowAgrees(0xd9, ROW_d9)
  {
    RowFromTree(0xd9, ROW_d9, F(F(L(0xf5), L(0xf6)), F(L(0xf7), L(0xf8))));
  }

  lemma Row_da()
    ensures RowAgrees(0xda, ROW_da)
  {
    RowFromTree(0xda, ROW_da, F(L(0xf5), L(0xf6)));
  }

  lemma Row_db()
    ensures RowAgrees(0xdb, ROW_db)
  {
    RowFromTree(0xdb, ROW_db, F(L(0xf7), L(0xf8)));
  }

  lemma Row_dc()
    ensures RowAgrees(0xdc, ROW_dc)
  {
    RowFromTree(0xdc, ROW_dc, F(F(L(0xfa), L(0xfb)), F(L(0xfc), L(0xfd))));
  }

  lemma Row_dd()
    ensures RowAgrees(0xdd, ROW_dd)
  {
    RowFromTree(0xdd, ROW_dd, F(L(0xfa), L(0xfb)));
  }

  lemma Row_de()
    ensures RowAgrees(0xde, ROW_de)
  {
    RowFromTree(0xde, ROW_de, F(L(0xfc), L(0xfd)));
  }

  lemma Row_df()
    ensures RowAgrees(0xdf, ROW_df)
  {
    RowFromTree(0xdf, ROW_df, F(F(F(F(L(0xfe), S(0xe3)), F(S(0xe5), S(0xe6))), F(F(S(0xe9), S(0xea)), F(S(0xec), S(0xed)))), F(F(F(S(0xf1), S(0xf2)), F(S(0xf4), S(0xf5))), F(F(S(0xf8), S(0xf9)), F(S(0xfb), S(0xfc))))));
  }

  lemma Row_e0()
    ensures RowAgrees(0xe0, ROW_e0)
  {
    RowFromTree(0xe0, ROW_e0, F(F(F(L(0xfe), F(L(0x02), L(0x03))), F(F(L(0x04), L(0x05)), F(L(0x06), L(0x07)))), F(F(F(L(0x08), L(0x0b)), F(L(0x0c), L(0x0e))), F(F(L(0x0f), L(0x10)), F(L(0x11), L(0x12))))));
  }

  lemma Row_e1()
    ensures RowAgrees(0xe1, ROW_e1)
  {
    RowFromTree(0xe1, ROW_e1, F(F(L(0xfe), F(L(0x02), L(0x03))), F(F(L(0x04), L(0x05)), F(L(0x06), L(0x07)))));
  }

  lemma Row_e2()
    ensures RowAgrees(0xe2, ROW_e2)
  {
    RowFromTree(0xe2, ROW_e2, F(L(0xfe), F(L(0x02), L(0x03))));
  }

  lemma Row_e3()
    ensures RowAgrees(0xe3, ROW_e3)
  {
    RowFromTree(0xe3, ROW_e3, F(L(0x02), L(0x03)));
  }

  lemma Row_e4()
    ensures RowAgrees(0xe4, ROW_e4)
  {
    RowFromTree(0xe4, ROW_e4, F(F(L(0x04), L(0x05)), F(L(0x06), L(0x07))));
  }

  lemma Row_e5()
    ensures RowAgrees(0xe5, ROW_e5)
  {
    RowFromTree(0xe5, ROW_e5, F(L(0x04), L(0x05)));
  }

  lemma Row_e6()
    ensures RowAgrees(0xe6, ROW_e6)
  {
    RowFromTree(0xe6, ROW_e6, F(L(0x06), L(0x07)));
  }

  lemma Row_e7()
    ensures RowAgrees(0xe7, ROW_e7)
  {
    RowFromTree(0xe7, ROW_e7, F(F(F(L(0x08), L(0x0b)), F(L(0x0c), L(0x0e))), F(F(L(0x0f), L(0x10)), F(L(0x11), L(0x12)))));
  }

  lemma Row_e8()
    ensures RowAgrees(0xe8, ROW_e8)
  {
    RowFromTree(0xe8, ROW_e8, F(F(L(0x08), L(0x0b)), F(L(0x0c), L(0x0e))));
  }

  lemma Row_e9()
    ensures RowAgrees(0xe9, ROW_e9)
  {
    RowFromTree(0xe9, ROW_e9, F(L(0x08), L(0x0b)));
  }

  lemma Row_ea()
    ensures RowAgrees(0xea, ROW_ea)
  {
    RowFromTree(0xea, ROW_ea, F(L(0x0c), L(0x0e)));
  }

  lemma Row_eb()
    ensures RowAgrees(0xeb, ROW_eb)
  {
    RowFromTree(0xeb, ROW_eb, F(F(L(0x0f), L(0x10)), F(L(0x11), L(0x12))));
  }

  lemma Row_ec()
    ensures RowAgrees(0xec, ROW_ec)
  {
    RowFromTree(0xec, ROW_ec, F(L(0x0f), L(0x10)));
  }

  lemma Row_ed()
    ensures RowAgrees(0xed, ROW_ed)
  {
    RowFromTree(0xed, ROW_ed, F(L(0x11), L(0x12)));
  }

  lemma Row_ee()
    ensures RowAgrees(0xee, ROW_ee)
  {
    RowFromTree(0xee, ROW_ee, F(F(F(F(L(0x13), L(0x14)), F(L(0x15), L(0x17))), F(F(L(0x18), L(0x19)), F(L(0x1a), L(0x1b)))), F(F(F(L(0x1c), L(0x1d)), F(L(0x1e), L(0x1f))), F(F(L(0x7f), L(0xdc)), F(L(0xf9), S(0xfd))))));
  }

  lemma Row_ef()
    ensures RowAgrees(0xef, ROW_ef)
  {
    RowFromTree(0xef, ROW_ef, F(F(F(L(0x13), L(0x14)), F(L(0x15), L(0x17))), F(F(L(0x18), L(0x19)), F(L(0x1a), L(0x1b)))));
  }

  lemma Row_f0()
    ensures RowAgrees(0xf0, ROW_f0)
  {
    RowFromTree(0xf0, ROW_f0, F(F(L(0x13), L(0x14)), F(L(0x15), L(0x17))));
  }

  lemma Row_f1()
    ensures RowAgrees(0xf1, ROW_f1)
  {
    RowFromTree(0xf1, ROW_f1, F(L(0x13), L(0x14)));
  }

  lemma Row_f2()
    ensures RowAgrees(0xf2, ROW_f2)
  {
    RowFromTree(0xf2, ROW_f2, F(L(0x15), L(0x17)));
  }

  lemma Row_f3()
    ensures RowAgrees(0xf3, ROW_f3)
  {
    RowFromTree(0xf3, ROW_f3, F(F(L(0x18), L(0x19)), F(L(0x1a), L(0x1b))));
  }

  lemma Row_f4()
    ensures RowAgrees(0xf4, ROW_f4)
  {
    RowFromTree(0xf4, ROW_f4, F(L(0x18), L(0x19)));
  }

  lemma Row_f5()
    ensures RowAgrees(0xf5, ROW_f5)
  {
    RowFromTree(0xf5, ROW_f5, F(L(0x1a), L(0x1b)));
  }

  lemma Row_f6()
    ensures RowAgrees(0xf6, ROW_f6)
  {
    RowFromTree(0xf6, ROW_f6, F(F(F(L(0x1c), L(0x1d)), F(L(0x1e), L(0x1f))), F(F(L(0x7f), L(0xdc)), F(L(0xf9), F(S(0xfe), S(0xff))))));
  }

  lemma Row_f7()
    ensures RowAgrees(0xf7, ROW_f7)
  {
    RowFromTree(0xf7, ROW_f7, F(F(L(0x1c), L(0x1d)), F(L(0x1e), L(0x1f))));
  }

  lemma Row_f8()
    ensures RowAgrees(0xf8, ROW_f8)
  {
    RowFromTree(0xf8, ROW_f8, F(L(0x1c), L(0x1d)));
  }

  lemma Row_f9()
    ensures RowAgrees(0xf9, ROW_f9)
  {
    RowFromTree(0xf9, ROW_f9, F(L(0x1e), L(0x1f)));
  }

  lemma Row_fa()
    ensures RowAgrees(0xfa, ROW_fa)
  {
    RowFromTree(0xfa, ROW_fa, F(F(L(0x7f), L(0xdc)), F(L(0xf9), F(F(L(0x0a), L(0x0d)), F(L(0x16), Eos)))));
  }

  lemma Row_fb()
    ensures RowAgrees(0xfb, ROW_fb)
  {
    RowFromTree(0xfb, ROW_fb, F(L(0x7f), L(0xdc)));
  }

  lemma Row_fc()
    ensures RowAgrees(0xfc, ROW_fc)
  {
    RowFromTree(0xfc, ROW_fc, F(L(0xf9), F(F(L(0x0a), L(0x0d)), F(L(0x16), Eos))));
  }

  lemma Row_fd()
    ensures RowAgrees(0xfd, ROW_fd)
  {
    RowFromTree(0xfd, ROW_fd, F(F(L(0x0a), L(0x0d)), F(L(0x16), Eos)));
  }

  lemma Row_fe()
    ensures RowAgrees(0xfe, ROW_fe)
  {
    RowFromTree(0xfe, ROW_fe, F(L(0x0a), L(0x0d)));
  }

  lemma Row_ff()
    ensures RowAgrees(0xff, ROW_ff)
  {
    RowFromTree(0xff, ROW_ff, F(L(0x16), Eos));
  }

  lemma RowsAgree_0(s: u8)
    requires 0 <= s < 16
    ensures RowAgrees(s, Rows_0(s))
  {
    hide RowAgrees;
    if s == 0x00 { Row_00(); } else if s == 0x01 { Row_01(); } else if s == 0x02 { Row_02(); } else if s == 0x03 { Row_03(); } else if s == 0x04 { Row_04(); } else if s == 0x05 { Row_05(); } else if s == 0x06 { Row_06(); } else if s == 0x07 { Row_07(); }
    else if s == 0x08 { Row_08(); } else if s == 0x09 { Row_09(); } else if s == 0x0a { Row_0a(); } else if s == 0x0b { Row_0b(); } else if s == 0x0c { Row_0c(); } else if s == 0x0d { Row_0d(); } else if s == 0x0e { Row_0e(); } else { Row_0f(); }
  }

  lemma RowsAgree_1(s: u8)
    requires 16 <= s < 32
    ensures RowAgrees(s, Rows_1(s))
  {
    hide RowAgrees;
    if s == 0x10 { Row_10(); } else if s == 0x11 { Row_11(); } else if s == 0x12 { Row_12(); } else if s == 0x13 { Row_13(); } else if s == 0x14 { Row_14(); } else if s == 0x15 { Row_15(); } else if s == 0x16 { Row_16(); } else if s == 0x17 { Row_17(); }
    else if s == 0x18 { Row_18(); } else if s == 0x19 { Row_19(); } else if s == 0x1a { Row_1a(); } else if s == 0x1b { Row_1b(); } else if s == 0x1c { Row_1c(); } else if s == 0x1d { Row_1d(); } else if s == 0x1e { Row_1e(); } else { Row_1f(); }
  }

  lemma RowsAgree_2(s: u8)
    requires 32 <= s < 48
    ensures RowAgrees(s, Rows_2(s))
  {
    hide RowAgrees;
    if s == 0x20 { Row_20(); } else if s == 0x21 { Row_21(); } else if s == 0x22 { Row_22(); } else if s == 0x23 { Row_23(); } else if s == 0x24 { Row_24(); } else if s == 0x25 { Row_25(); } else if s == 0x26 { Row_26(); } else if s == 0x27 { Row_27(); }
    else if s == 0x28 { Row_28(); } else if s == 0x29 { Row_29(); } else if s == 0x2a { Row_2a(); } else if s == 0x2b { Row_2b(); } else if s == 0x2c { Row_2c(); } else if s == 0x2d { Row_2d(); } else if s == 0x2e { Row_2e(); } else { Row_2f(); }
  }

  lemma RowsAgree_3(s: u8)
    requires 48 <= s < 64
    ensures RowAgrees(s, Rows_3(s))
  {
    hide RowAgrees;
    if s == 0x30 { Row_30(); } else if s == 0x31 { Row_31(); } else if s == 0x32 { Row_32(); } else if s == 0x33 { Row_33(); } else if s == 0x34 { Row_34(); } else if s == 0x35 { Row_35(); } else if s == 0x36 { Row_36(); } else if s == 0x37 { Row_37(); }
    else if s == 0x38 { Row_38(); } else if s == 0x39 { Row_39(); } else if s == 0x3a { Row_3a(); } else if s == 0x3b { Row_3b(); } else if s == 0x3c { Row_3c(); } else if s == 0x3d { Row_3d(); } else if s == 0x3e { Row_3e(); } else { Row_3f(); }
  }

  lemma RowsAgree_4(s: u8)
    requires 64 <= s < 80
    ensures RowAgrees(s, Rows_4(s))
  {
    hide RowAgrees;
    if s == 0x40 { Row_40(); } else if s == 0x41 { Row_41(); } else if s == 0x42 { Row_42(); } else if s == 0x43 { Row_43(); } else if s == 0x44 { Row_44(); } else if s == 0x45 { Row_45(); } else if s == 0x46 { Row_46(); } else if s == 0x47 { Row_47(); }
    else if s == 0x48 { Row_48(); } else if s == 0x49 { Row_49(); } else if s == 0x4a { Row_4a(); } else if s == 0x4b { Row_4b(); } else if s == 0x4c { Row_4c(); } else if s == 0x4d { Row_4d(); } else if s == 0x4e { Row_4e(); } else { Row_4f(); }
  }

  lemma RowsAgree_5(s: u8)
    requires 80 <= s < 96
    ensures RowAgrees(s, Rows_5(s))
  {
    hide RowAgrees;
    if s == 0x50 { Row_50(); } else if s == 0x51 { Row_51(); } else if s == 0x52 { Row_52(); } else if s == 0x53 { Row_53(); } else if s == 0x54 { Row_54(); } else if s == 0x55 { Row_55(); } else if s == 0x56 { Row_56(); } else if s == 0x57 { Row_57(); }
    else if s == 0x58 { Row_58(); } else if s == 0x59 { Row_59(); } else if s == 0x5a { Row_5a(); } else if s == 0x5b { Row_5b(); } else if s == 0x5c { Row_5c(); } else if s == 0x5d { Row_5d(); } else if s == 0x5e { Row_5e(); } else { Row_5f(); }
  }

  lemma RowsAgree_6(s: u8)
    requires 96 <= s < 112
    ensures RowAgrees(s, Rows_6(s))
  {
    hide RowAgrees;
    if s == 0x60 { Row_60(); } else if s == 0x61 { Row_61(); } else if s == 0x62 { Row_62(); } else if s == 0x63 { Row_63(); } else if s == 0x64 { Row_64(); } else if s == 0x65 { Row_65(); } else if s == 0x66 { Row_66(); } else if s == 0x67 { Row_67(); }
    else if s == 0x68 { Row_68(); } else if s == 0x69 { Row_69(); } else if s == 0x6a { Row_6a(); } else if s == 0x6b { Row_6b(); } else if s == 0x6c { Row_6c(); } else if s == 0x6d { Row_6d(); } else if s == 0x6e { Row_6e(); } else { Row_6f(); }
  }

  lemma RowsAgree_7(s: u8)
    requires 112 <= s < 128
    ensures RowAgrees(s, Rows_7(s))
  {
    hide RowAgrees;
    if s == 0x70 { Row_70(); } else if s == 0x71 { Row_71(); } else if s == 0x72 { Row_72(); } else if s == 0x73 { Row_73(); } else if s == 0x74 { Row_74(); } else if s == 0x75 { Row_75(); } else if s == 0x76 { Row_76(); } else if s == 0x77 { Row_77(); }
    else if s == 0x78 { Row_78(); } else if s == 0x79 { Row_79(); } else if s == 0x7a { Row_7a(); } else if s == 0x7b { Row_7b(); } else if s == 0x7c { Row_7c(); } else if s == 0x7d { Row_7d(); } else if s == 0x7e { Row_7e(); } else { Row_7f(); }
  }

  lemma RowsAgree_8(s: u8)
    requires 128 <= s < 144
    ensures RowAgrees(s, Rows_8(s))
  {
    hide RowAgrees;
    if s == 0x80 { Row_80(); } else if s == 0x81 { Row_81(); } else if s == 0x82 { Row_82(); } else if s == 0x83 { Row_83(); } else if s == 0x84 { Row_84(); } else if s == 0x85 { Row_85(); } else if s == 0x86 { Row_86(); } else if s == 0x87 { Row_87(); }
    else if s == 0x88 { Row_88(); } else if s == 0x89 { Row_89(); } else if s == 0x8a { Row_8a(); } else if s == 0x8b { Row_8b(); } else if s == 0x8c { Row_8c(); } else if s == 0x8d { Row_8d(); } else if s == 0x8e { Row_8e(); } else { Row_8f(); }
  }

  lemma RowsAgree_9(s: u8)
    requires 144 <= s < 160
    ensures RowAgrees(s, Rows_9(s))
  {
    hide RowAgrees;
    if s == 0x90 { Row_90(); } else if s == 0x91 { Row_91(); } else if s == 0x92 { Row_92(); } else if s == 0x93 { Row_93(); } else if s == 0x94 { Row_94(); } else if s == 0x95 { Row_95(); } else if s == 0x96 { Row_96(); } else if s == 0x97 { Row_97(); }
    else if s == 0x98 { Row_98(); } else if s == 0x99 { Row_99(); } else if s == 0x9a { Row_9a(); } else if s == 0x9b { Row_9b(); } else if s == 0x9c { Row_9c(); } else if s == 0x9d { Row_9d(); } else if s == 0x9e { Row_9e(); } else { Row_9f(); }
  }

  lemma RowsAgree_a(s: u8)
    requires 160 <= s < 176
    ensures RowAgrees(s, Rows_a(s))
  {
    hide RowAgrees;
    if s == 0xa0 { Row_a0(); } else if s == 0xa1 { Row_a1(); } else if s == 0xa2 { Row_a2(); } else if s == 0xa3 { Row_a3(); } else if s == 0xa4 { Row_a4(); } else if s == 0xa5 { Row_a5(); } else if s == 0xa6 { Row_a6(); } else if s == 0xa7 { Row_a7(); }
    else if s == 0xa8 { Row_a8(); } else if s == 0xa9 { Row_a9(); } else if s == 0xaa { Row_aa(); } else if s == 0xab { Row_ab(); } else if s == 0xac { Row_ac(); } else if s == 0xad { Row_ad(); } else if s == 0xae { Row_ae(); } else { Row_af(); }
  }

  lemma RowsAgree_b(s: u8)
    requires 176 <= s < 192
    ensures RowAgrees(s, Rows_b(s))
  {
    hide RowAgrees;
    if s == 0xb0 { Row_b0(); } else if s == 0xb1 { Row_b1(); } else if s == 0xb2 { Row_b2(); } else if s == 0xb3 { Row_b3(); } else if s == 0xb4 { Row_b4(); } else if s == 0xb5 { Row_b5(); } else if s == 0xb6 { Row_b6(); } else if s == 0xb7 { Row_b7(); }
    else if s == 0xb8 { Row_b8(); } else if s == 0xb9 { Row_b9(); } else if s == 0xba { Row_ba(); } else if s == 0xbb { Row_bb(); } else if s == 0xbc { Row_bc(); } else if s == 0xbd { Row_bd(); } else if s == 0xbe { Row_be(); } else { Row_bf(); }
  }

  lemma RowsAgree_c(s: u8)
    requires 192 <= s < 208
    ensures RowAgrees(s, Rows_c(s))
  {
    hide RowAgrees;
    if s == 0xc0 { Row_c0(); } else if s == 0xc1 { Row_c1(); } else if s == 0xc2 { Row_c2(); } else if s == 0xc3 { Row_c3(); } else if s == 0xc4 { Row_c4(); } else if s == 0xc5 { Row_c5(); } else if s == 0xc6 { Row_c6(); } else if s == 0xc7 { Row_c7(); }
    else if s == 0xc8 { Row_c8(); } else if s == 0xc9 { Row_c9(); } else if s == 0xca { Row_ca(); } else if s == 0xcb { Row_cb(); } else if s == 0xcc { Row_cc(); } else if s == 0xcd { Row_cd(); } else if s == 0xce { Row_ce(); } else { Row_cf(); }
  }

  lemma RowsAgree_d(s: u8)
    requires 208 <= s < 224
    ensures RowAgrees(s, Rows_d(s))
  {
    hide RowAgrees;
    if s == 0xd0 { Row_d0(); } else if s == 0xd1 { Row_d1(); } else if s == 0xd2 { Row_d2(); } else if s == 0xd3 { Row_d3(); } else if s == 0xd4 { Row_d4(); } else if s == 0xd5 { Row_d5(); } else if s == 0xd6 { Row_d6(); } else if s == 0xd7 { Row_d7(); }
    else if s == 0xd8 { Row_d8(); } else if s == 0xd9 { Row_d9(); } else if s == 0xda { Row_da(); } else if s == 0xdb { Row_db(); } else if s == 0xdc { Row_dc(); } else if s == 0xdd { Row_dd(); } else if s == 0xde { Row_de(); } else { Row_df(); }
  }

  lemma RowsAgree_e(s: u8)
    requires 224 <= s < 240
    ensures RowAgrees(s, Rows_e(s))
  {
    hide RowAgrees;
    if s == 0xe0 { Row_e0(); } else if s == 0xe1 { Row_e1(); } else if s == 0xe2 { Row_e2(); } else if s == 0xe3 { Row_e3(); } else if s == 0xe4 { Row_e4(); } else if s == 0xe5 { Row_e5(); } else if s == 0xe6 { Row_e6(); } else if s == 0xe7 { Row_e7(); }
    else if s == 0xe8 { Row_e8(); } else if s == 0xe9 { Row_e9(); } else if s == 0xea { Row_ea(); } else if s == 0xeb { Row_eb(); } else if s == 0xec { Row_ec(); } else if s == 0xed { Row_ed(); } else if s == 0xee { Row_ee(); } else { Row_ef(); }
  }

  lemma RowsAgree_f(s: u8)
    requires 240 <= s < 256
    ensures RowAgrees(s, Rows_f(s))
  {
    hide RowAgrees;
    if s == 0xf0 { Row_f0(); } else if s == 0xf1 { Row_f1(); } else if s == 0xf2 { Row_f2(); } else if s == 0xf3 { Row_f3(); } else if s == 0xf4 { Row_f4(); } else if s == 0xf5 { Row_f5(); } else if s == 0xf6 { Row_f6(); } else if s == 0xf7 { Row_f7(); }
    else if s == 0xf8 { Row_f8(); } else if s == 0xf9 { Row_f9(); } else if s == 0xfa { Row_fa(); } else if s == 0xfb { Row_fb(); } else if s == 0xfc { Row_fc(); } else if s == 0xfd { Row_fd(); } else if s == 0xfe { Row_fe(); } else { Row_ff(); }
  }

  /** Every row of the decoding table agrees with the code table. */
  lemma TableAgrees(s: u8)
    ensures RowAgrees(s, DecodeRow(s))
  {
    hide RowAgrees, Rows_0, Rows_1, Rows_2, Rows_3, Rows_4, Rows_5, Rows_6, Rows_7, Rows_8, Rows_9, Rows_a, Rows_b, Rows_c, Rows_d, Rows_e, Rows_f;
    if s < 0x10 { RowsAgree_0(s); }
    else if s < 0x20 { RowsAgree_1(s); }
    else if s < 0x30 { RowsAgree_2(s); }
    else if s < 0x40 { RowsAgree_3(s); }
    else if s < 0x50 { RowsAgree_4(s); }
    else if s < 0x60 { RowsAgree_5(s); }
    else if s < 0x70 { RowsAgree_6(s); }
    else if s < 0x80 { RowsAgree_7(s); }
    else if s < 0x90 { RowsAgree_8(s); }
    else if s < 0xa0 { RowsAgree_9(s); }
    else if s < 0xb0 { RowsAgree_a(s); }
    else if s < 0xc0 { RowsAgree_b(s); }
    else if s < 0xd0 { RowsAgree_c(s); }
    else if s < 0xe0 { RowsAgree_d(s); }
    else if s < 0xf0 { RowsAgree_e(s); }
    else { RowsAgree_f(s); }
  }

  lemma Symbols_0(x: nat)
    requires 0 <= x < 64
    ensures SymbolInOrder(x)
  {
  }

  lemma Symbols_1(x: nat)
    requires 64 <= x < 128
    ensures SymbolInOrder(x)
  {
  }

  lemma Symbols_2(x: nat)
    requires 128 <= x < 192
    ensures SymbolInOrder(x)
  {
  }

  lemma Symbols_3(x: nat)
    requires 192 <= x < 257
    ensures SymbolInOrder(x)
  {
  }

  /** Every code of the encoding table has its place in the canonical order. */
  lemma CodeInOrder(x: nat)
    requires x <= EOS
    ensures SymbolInOrder(x)
  {
    if x < 64 { Symbols_0(x); } else if x < 128 { Symbols_1(x); } else if x < 192 { Symbols_2(x); } else { Symbols_3(x); }
  }

  //
  // The states are the inner nodes, each of them once.
  //

  /** How many inner nodes have a depth below `n`. */
  function InnerBefore(n: nat): nat
    requires n <= 30
  {
    if n < 0x10 then
      if n < 0x08 then
        if n < 0x04 then
          (if n < 2 then (if n < 1 then 0 else 1) else (if n < 3 then 3 else 7))
        else
          (if n < 6 then (if n < 5 then 15 else 31) else (if n < 7 then 53 else 71))
      else
        if n < 0x0c then
          (if n < 10 then (if n < 9 then 75 else 77) else (if n < 11 then 81 else 84))
        else
          (if n < 14 then (if n < 13 then 87 else 91) else (if n < 15 then 93 else 95))
    else
      if n < 0x18 then
        if n < 0x14 then
          (if n < 18 then (if n < 17 then 96 else 98) else (if n < 19 then 102 else 110))
        else
          (if n < 22 then (if n < 21 then 123 else 141) else (if n < 23 then 164 else 184))
      else
        if n < 0x1c then
          (if n < 26 then (if n < 25 then 195 else 205) else (if n < 27 then 221 else 238))
        else
          (if n < 30 then (if n < 29 then 253 else 254) else 256)
  }

  /** The states in the order of their nodes. */
  function StateInOrder(rank: nat): u8 {
    if rank < 0x80 then
      if rank < 0x40 then
        if rank < 0x20 then
          if rank < 0x10 then
            if rank < 0x08 then
              if rank < 0x04 then
                (if rank < 2 then (if rank < 1 then 0x00 else 0x01) else (if rank < 3 then 0x16 else 0x02))
              else
                (if rank < 6 then (if rank < 5 then 0x09 else 0x17) else (if rank < 7 then 0x28 else 0x03))
            else
              if rank < 0x0c then
                (if rank < 10 then (if rank < 9 then 0x06 else 0x0a) else (if rank < 11 then 0x0f else 0x18))
              else
                (if rank < 14 then (if rank < 13 then 0x1f else 0x29) else (if rank < 15 then 0x38 else 0x04))
          else
            if rank < 0x18 then
              if rank < 0x14 then
                (if rank < 18 then (if rank < 17 then 0x05 else 0x07) else (if rank < 19 then 0x08 else 0x0b))
              else
                (if rank < 22 then (if rank < 21 then 0x0c else 0x10) else (if rank < 23 then 0x13 else 0x19))
            else
              if rank < 0x1c then
                (if rank < 26 then (if rank < 25 then 0x1c else 0x20) else (if rank < 27 then 0x23 else 0x2a))
              else
                (if rank < 30 then (if rank < 29 then 0x31 else 0x39) else (if rank < 31 then 0x40 else 0x0d))
        else
          if rank < 0x30 then
            if rank < 0x28 then
              if rank < 0x24 then
                (if rank < 34 then (if rank < 33 then 0x0e else 0x11) else (if rank < 35 then 0x12 else 0x14))
              else
                (if rank < 38 then (if rank < 37 then 0x15 else 0x1a) else (if rank < 39 then 0x1b else 0x1d))
            else
              if rank < 0x2c then
                (if rank < 42 then (if rank < 41 then 0x1e else 0x21) else (if rank < 43 then 0x22 else 0x24))
              else
                (if rank < 46 then (if rank < 45 then 0x25 else 0x2b) else (if rank < 47 then 0x2e else 0x32))
          else
            if rank < 0x38 then
              if rank < 0x34 then
                (if rank < 50 then (if rank < 49 then 0x35 else 0x3a) else (if rank < 51 then 0x3d else 0x41))
              else
                (if rank < 54 then (if rank < 53 then 0x44 else 0x26) else (if rank < 55 then 0x27 else 0x2c))
            else
              if rank < 0x3c then
                (if rank < 58 then (if rank < 57 then 0x2d else 0x2f) else (if rank < 59 then 0x30 else 0x33))
              else
                (if rank < 62 then (if rank < 61 then 0x34 else 0x36) else (if rank < 63 then 0x37 else 0x3b))
      else
        if rank < 0x60 then
          if rank < 0x50 then
            if rank < 0x48 then
              if rank < 0x44 then
                (if rank < 66 then (if rank < 65 then 0x3c else 0x3e) else (if rank < 67 then 0x3f else 0x42))
              else
                (if rank < 70 then (if rank < 69 then 0x43 else 0x45) else (if rank < 71 then 0x48 else 0x46))
            else
              if rank < 0x4c then
                (if rank < 74 then (if rank < 73 then 0x47 else 0x49) else (if rank < 75 then 0x4a else 0x4b))
              else
                (if rank < 78 then (if rank < 77 then 0x4e else 0x4c) else (if rank < 79 then 0x4d else 0x4f))
          else
            if rank < 0x58 then
              if rank < 0x54 then
                (if rank < 82 then (if rank < 81 then 0x51 else 0x50) else (if rank < 83 then 0x52 else 0x54))
              else
                (if rank < 86 then (if rank < 85 then 0x53 else 0x55) else (if rank < 87 then 0x58 else 0x56))
            else
              if rank < 0x5c then
                (if rank < 90 then (if rank < 89 then 0x57 else 0x59) else (if rank < 91 then 0x5a else 0x5b))
              else
                (if rank < 94 then (if rank < 93 then 0x5c else 0x5d) else (if rank < 95 then 0x5e else 0x5f))
        else
          if rank < 0x70 then
            if rank < 0x68 then
              if rank < 0x64 then
                (if rank < 98 then (if rank < 97 then 0x60 else 0x6e) else (if rank < 99 then 0x61 else 0x65))
              else
                (if rank < 102 then (if rank < 101 then 0x6f else 0x85) else (if rank < 103 then 0x62 else 0x63))
            else
              if rank < 0x6c then
                (if rank < 106 then (if rank < 105 then 0x66 else 0x69) else (if rank < 107 then 0x70 else 0x77))
              else
                (if rank < 110 then (if rank < 109 then 0x86 else 0x99) else (if rank < 111 then 0x64 else 0x67))
          else
            if rank < 0x78 then
              if rank < 0x74 then
                (if rank < 114 then (if rank < 113 then 0x68 else 0x6a) else (if rank < 115 then 0x6b else 0x71))
              else
                (if rank < 118 then (if rank < 117 then 0x74 else 0x78) else (if rank < 119 then 0x7e else 0x87))
            else
              if rank < 0x7c then
                (if rank < 122 then (if rank < 121 then 0x8e else 0x9a) else (if rank < 123 then 0xa9 else 0x6c))
              else
                (if rank < 126 then (if rank < 125 then 0x6d else 0x72) else (if rank < 127 then 0x73 else 0x75))
    else
      if rank < 0xc0 then
        if rank < 0xa0 then
          if rank < 0x90 then
            if rank < 0x88 then
              if rank < 0x84 then
                (if rank < 130 then (if rank < 129 then 0x76 else 0x79) else (if rank < 131 then 0x7b else 0x7f))
              else
                (if rank < 134 then (if rank < 133 then 0x82 else 0x88) else (if rank < 135 then 0x8b else 0x8f))
            else
              if rank < 0x8c then
                (if rank < 138 then (if rank < 137 then 0x92 else 0x9b) else (if rank < 139 then 0xa2 else 0xaa))
              else
                (if rank < 142 then (if rank < 141 then 0xb4 else 0x7a) else (if rank < 143 then 0x7c else 0x7d))
          else
            if rank < 0x98 then
              if rank < 0x94 then
                (if rank < 146 then (if rank < 145 then 0x80 else 0x81) else (if rank < 147 then 0x83 else 0x84))
              else
                (if rank < 150 then (if rank < 149 then 0x89 else 0x8a) else (if rank < 151 then 0x8c else 0x8d))
            else
              if rank < 0x9c then
                (if rank < 154 then (if rank < 153 then 0x90 else 0x91) else (if rank < 155 then 0x93 else 0x96))
              else
                (if rank < 158 then (if rank < 157 then 0x9c else 0x9f) else (if rank < 159 then 0xa3 else 0xa6))
        else
          if rank < 0xb0 then
            if rank < 0xa8 then
              if rank < 0xa4 then
                (if rank < 162 then (if rank < 161 then 0xab else 0xae) else (if rank < 163 then 0xb5 else 0xbe))
              else
                (if rank < 166 then (if rank < 165 then 0x94 else 0x95) else (if rank < 167 then 0x97 else 0x98))
            else
              if rank < 0xac then
                (if rank < 170 then (if rank < 169 then 0x9d else 0x9e) else (if rank < 171 then 0xa0 else 0xa1))
              else
                (if rank < 174 then (if rank < 173 then 0xa4 else 0xa5) else (if rank < 175 then 0xa7 else 0xa8))
          else
            if rank < 0xb8 then
              if rank < 0xb4 then
                (if rank < 178 then (if rank < 177 then 0xac else 0xad) else (if rank < 179 then 0xaf else 0xb1))
              else
                (if rank < 182 then (if rank < 181 then 0xb6 else 0xb9) else (if rank < 183 then 0xbf else 0xcf))
            else
              if rank < 0xbc then
                (if rank < 186 then (if rank < 185 then 0xb0 else 0xb2) else (if rank < 187 then 0xb3 else 0xb7))
              else
                (if rank < 190 then (if rank < 189 then 0xb8 else 0xba) else (if rank < 191 then 0xbb else 0xc0))
      else
        if rank < 0xe0 then
          if rank < 0xd0 then
            if rank < 0xc8 then
              if rank < 0xc4 then
                (if rank < 194 then (if rank < 193 then 0xc7 else 0xd0) else (if rank < 195 then 0xdf else 0xbc))
              else
                (if rank < 198 then (if rank < 197 then 0xbd else 0xc1) else (if rank < 199 then 0xc4 else 0xc8))
            else
              if rank < 0xcc then
                (if rank < 202 then (if rank < 201 then 0xcb else 0xd1) else (if rank < 203 then 0xd8 else 0xe0))
              else
                (if rank < 206 then (if rank < 205 then 0xee else 0xc2) else (if rank < 207 then 0xc3 else 0xc5))
          else
            if rank < 0xd8 then
              if rank < 0xd4 then
                (if rank < 210 then (if rank < 209 then 0xc6 else 0xc9) else (if rank < 211 then 0xca else 0xcc))
              else
                (if rank < 214 then (if rank < 213 then 0xcd else 0xd2) else (if rank < 215 then 0xd5 else 0xd9))
            else
              if rank < 0xdc then
                (if rank < 218 then (if rank < 217 then 0xdc else 0xe1) else (if rank < 219 then 0xe7 else 0xef))
              else
                (if rank < 222 then (if rank < 221 then 0xf6 else 0xce) else (if rank < 223 then 0xd3 else 0xd4))
        else
          if rank < 0xf0 then
            if rank < 0xe8 then
              if rank < 0xe4 then
                (if rank < 226 then (if rank < 225 then 0xd6 else 0xd7) else (if rank < 227 then 0xda else 0xdb))
              else
                (if rank < 230 then (if rank < 229 then 0xdd else 0xde) else (if rank < 231 then 0xe2 else 0xe4))
            else
              if rank < 0xec then
                (if rank < 234 then (if rank < 233 then 0xe8 else 0xeb) else (if rank < 235 then 0xf0 else 0xf3))
              else
                (if rank < 238 then (if rank < 237 then 0xf7 else 0xfa) else (if rank < 239 then 0xe3 else 0xe5))
          else
            if rank < 0xf8 then
              if rank < 0xf4 then
                (if rank < 242 then (if rank < 241 then 0xe6 else 0xe9) else (if rank < 243 then 0xea else 0xec))
              else
                (if rank < 246 then (if rank < 245 then 0xed else 0xf1) else (if rank < 247 then 0xf2 else 0xf4))
            else
              if rank < 0xfc then
                (if rank < 250 then (if rank < 249 then 0xf5 else 0xf8) else (if rank < 251 then 0xf9 else 0xfb))
              else
                (if rank < 254 then (if rank < 253 then 0xfc else 0xfd) else (if rank < 255 then 0xfe else 0xff))
  }

  /** The rank of a node among the inner nodes, which at each depth lie beyond the codes. */
  function Rank(node: Node): int
    requires node.len <= 29
  {
    InnerBefore(node.len) + node.val - Limit(node.len)
  }

  /** At each depth the inner nodes lie beyond the codes. */
  predicate RankInPlace(rank: nat) {
    var node := NodeOf(StateInOrder(rank));
    && node.len <= 29 && InnerBefore(node.len) <= rank < InnerBefore(node.len + 1)
    && Rank(node) == rank
  }

  lemma RootInPlace(rank: nat)
    requires rank < 1
    ensures RankInPlace(rank)
  {
    assert StateInOrder(rank) == rank && NodeOf(rank) == Node(0, 0);
    assert Limit(rank) == 0 && InnerBefore(rank) == 0 && InnerBefore(rank + 1) == 1;
    hide NodeOf, StateInOrder, Limit, InnerBefore;
  }

  lemma Ranks_0(rank: nat)
    requires 0 <= rank < 1
    ensures RankInPlace(rank)
  {
    RootInPlace(rank);
  }

  lemma Ranks_1(rank: nat)
    requires 1 <= rank < 8
    ensures RankInPlace(rank)
  {
  }

  lemma Ranks_2(rank: nat)
    requires 8 <= rank < 16
    ensures RankInPlace(rank)
  {
  }

  lemma Ranks_3(rank: nat)
    requires 16 <= rank < 24
    ensures RankInPlace(rank)
  {
  }

  lemma Ranks_4(rank: nat)
    requires 24 <= rank < 32
    ensures RankInPlace(rank)
  {
  }

  lemma Ranks_5(rank: nat)
    requires 32 <= rank < 48
    ensures RankInPlace(rank)
  {
  }

  lemma Ranks_6(rank: nat)
    requires 48 <= rank < 64
    ensures RankInPlace(rank)
  {
  }

  lemma Ranks_7(rank: nat)
    requires 64 <= rank < 96
    ensures RankInPlace(rank)
  {
  }

  lemma Ranks_8(rank: nat)
    requires 96 <= rank < 128
    ensures RankInPlace(rank)
  {
  }

  lemma Ranks_9(rank: nat)
    requires 128 <= rank < 160
    ensures RankInPlace(rank)
  {
  }

  lemma Ranks_10(rank: nat)
    requires 160 <= rank < 192
    ensures RankInPlace(rank)
  {
  }

  lemma Ranks_11(rank: nat)
    requires 192 <= rank < 256
    ensures RankInPlace(rank)
  {
  }

  lemma RanksInPlace(rank: nat)
    requires rank < 256
    ensures RankInPlace(rank)
  {
    hide RankInPlace;
    if rank < 1 { Ranks_0(rank); }
    else if rank < 8 { Ranks_1(rank); }
    else if rank < 16 { Ranks_2(rank); }
    else if rank < 24 { Ranks_3(rank); }
    else if rank < 32 { Ranks_4(rank); }
    else if rank < 48 { Ranks_5(rank); }
    else if rank < 64 { Ranks_6(rank); }
    else if rank < 96 { Ranks_7(rank); }
    else if rank < 128 { Ranks_8(rank); }
    else if rank < 160 { Ranks_9(rank); }
    else if rank < 192 { Ranks_10(rank); }
    else { Ranks_11(rank); }
  }

  /** The place of a state in that order. */
  function RankOf(s: u8): (rank: nat)
    ensures rank < 256
  {
    if s < 0x80 then
      if s < 0x40 then
        if s < 0x20 then
          if s < 0x10 then
            if s < 0x08 then
              if s < 0x04 then
                (if s < 2 then (if s < 1 then 0 else 1) else (if s < 3 then 3 else 7))
              else
                (if s < 6 then (if s < 5 then 15 else 16) else (if s < 7 then 8 else 17))
            else
              if s < 0x0c then
                (if s < 10 then (if s < 9 then 18 else 4) else (if s < 11 then 9 else 19))
              else
                (if s < 14 then (if s < 13 then 20 else 31) else (if s < 15 then 32 else 10))
          else
            if s < 0x18 then
              if s < 0x14 then
                (if s < 18 then (if s < 17 then 21 else 33) else (if s < 19 then 34 else 22))
              else
                (if s < 22 then (if s < 21 then 35 else 36) else (if s < 23 then 2 else 5))
            else
              if s < 0x1c then
                (if s < 26 then (if s < 25 then 11 else 23) else (if s < 27 then 37 else 38))
              else
                (if s < 30 then (if s < 29 then 24 else 39) else (if s < 31 then 40 else 12))
        else
          if s < 0x30 then
            if s < 0x28 then
              if s < 0x24 then
                (if s < 34 then (if s < 33 then 25 else 41) else (if s < 35 then 42 else 26))
              else
                (if s < 38 then (if s < 37 then 43 else 44) else (if s < 39 then 53 else 54))
            else
              if s < 0x2c then
                (if s < 42 then (if s < 41 then 6 else 13) else (if s < 43 then 27 else 45))
              else
                (if s < 46 then (if s < 45 then 55 else 56) else (if s < 47 then 46 else 57))
          else
            if s < 0x38 then
              if s < 0x34 then
                (if s < 50 then (if s < 49 then 58 else 28) else (if s < 51 then 47 else 59))
              else
                (if s < 54 then (if s < 53 then 60 else 48) else (if s < 55 then 61 else 62))
            else
              if s < 0x3c then
                (if s < 58 then (if s < 57 then 14 else 29) else (if s < 59 then 49 else 63))
              else
                (if s < 62 then (if s < 61 then 64 else 50) else (if s < 63 then 65 else 66))
      else
        if s < 0x60 then
          if s < 0x50 then
            if s < 0x48 then
              if s < 0x44 then
                (if s < 66 then (if s < 65 then 30 else 51) else (if s < 67 then 67 else 68))
              else
                (if s < 70 then (if s < 69 then 52 else 69) else (if s < 71 then 71 else 72))
            else
              if s < 0x4c then
                (if s < 74 then (if s < 73 then 70 else 73) else (if s < 75 then 74 else 75))
              else
                (if s < 78 then (if s < 77 then 77 else 78) else (if s < 79 then 76 else 79))
          else
            if s < 0x58 then
              if s < 0x54 then
                (if s < 82 then (if s < 81 then 81 else 80) else (if s < 83 then 82 else 84))
              else
                (if s < 86 then (if s < 85 then 83 else 85) else (if s < 87 then 87 else 88))
            else
              if s < 0x5c then
                (if s < 90 then (if s < 89 then 86 else 89) else (if s < 91 then 90 else 91))
              else
                (if s < 94 then (if s < 93 then 92 else 93) else (if s < 95 then 94 else 95))
        else
          if s < 0x70 then
            if s < 0x68 then
              if s < 0x64 then
                (if s < 98 then (if s < 97 then 96 else 98) else (if s < 99 then 102 else 103))
              else
                (if s < 102 then (if s < 101 then 110 else 99) else (if s < 103 then 104 else 111))
            else
              if s < 0x6c then
                (if s < 106 then (if s < 105 then 112 else 105) else (if s < 107 then 113 else 114))
              else
                (if s < 110 then (if s < 109 then 123 else 124) else (if s < 111 then 97 else 100))
          else
            if s < 0x78 then
              if s < 0x74 then
                (if s < 114 then (if s < 113 then 106 else 115) else (if s < 115 then 125 else 126))
              else
                (if s < 118 then (if s < 117 then 116 else 127) else (if s < 119 then 128 else 107))
            else
              if s < 0x7c then
                (if s < 122 then (if s < 121 then 117 else 129) else (if s < 123 then 141 else 130))
              else
                (if s < 126 then (if s < 125 then 142 else 143) else (if s < 127 then 118 else 131))
    else
      if s < 0xc0 then
        if s < 0xa0 then
          if s < 0x90 then
            if s < 0x88 then
              if s < 0x84 then
                (if s < 130 then (if s < 129 then 144 else 145) else (if s < 131 then 132 else 146))
              else
                (if s < 134 then (if s < 133 then 147 else 101) else (if s < 135 then 108 else 119))
            else
              if s < 0x8c then
                (if s < 138 then (if s < 137 then 133 else 148) else (if s < 139 then 149 else 134))
              else
                (if s < 142 then (if s < 141 then 150 else 151) else (if s < 143 then 120 else 135))
          else
            if s < 0x98 then
              if s < 0x94 then
                (if s < 146 then (if s < 145 then 152 else 153) else (if s < 147 then 136 else 154))
              else
                (if s < 150 then (if s < 149 then 164 else 165) else (if s < 151 then 155 else 166))
            else
              if s < 0x9c then
                (if s < 154 then (if s < 153 then 167 else 109) else (if s < 155 then 121 else 137))
              else
                (if s < 158 then (if s < 157 then 156 else 168) else (if s < 159 then 169 else 157))
        else
          if s < 0xb0 then
            if s < 0xa8 then
              if s < 0xa4 then
                (if s < 162 then (if s < 161 then 170 else 171) else (if s < 163 then 138 else 158))
              else
                (if s < 166 then (if s < 165 then 172 else 173) else (if s < 167 then 159 else 174))
            else
              if s < 0xac then
                (if s < 170 then (if s < 169 then 175 else 122) else (if s < 171 then 139 else 160))
              else
                (if s < 174 then (if s < 173 then 176 else 177) else (if s < 175 then 161 else 178))
          else
            if s < 0xb8 then
              if s < 0xb4 then
                (if s < 178 then (if s < 177 then 184 else 179) else (if s < 179 then 185 else 186))
              else
                (if s < 182 then (if s < 181 then 140 else 162) else (if s < 183 then 180 else 187))
            else
              if s < 0xbc then
                (if s < 186 then (if s < 185 then 188 else 181) else (if s < 187 then 189 else 190))
              else
                (if s < 190 then (if s < 189 then 195 else 196) else (if s < 191 then 163 else 182))
      else
        if s < 0xe0 then
          if s < 0xd0 then
            if s < 0xc8 then
              if s < 0xc4 then
                (if s < 194 then (if s < 193 then 191 else 197) else (if s < 195 then 205 else 206))
              else
                (if s < 198 then (if s < 197 then 198 else 207) else (if s < 199 then 208 else 192))
            else
              if s < 0xcc then
                (if s < 202 then (if s < 201 then 199 else 209) else (if s < 203 then 210 else 200))
              else
                (if s < 206 then (if s < 205 then 211 else 212) else (if s < 207 then 221 else 183))
          else
            if s < 0xd8 then
              if s < 0xd4 then
                (if s < 210 then (if s < 209 then 193 else 201) else (if s < 211 then 213 else 222))
              else
                (if s < 214 then (if s < 213 then 223 else 214) else (if s < 215 then 224 else 225))
            else
              if s < 0xdc then
                (if s < 218 then (if s < 217 then 202 else 215) else (if s < 219 then 226 else 227))
              else
                (if s < 222 then (if s < 221 then 216 else 228) else (if s < 223 then 229 else 194))
        else
          if s < 0xf0 then
            if s < 0xe8 then
              if s < 0xe4 then
                (if s < 226 then (if s < 225 then 203 else 217) else (if s < 227 then 230 else 238))
              else
                (if s < 230 then (if s < 229 then 231 else 239) else (if s < 231 then 240 else 218))
            else
              if s < 0xec then
                (if s < 234 then (if s < 233 then 232 else 241) else (if s < 235 then 242 else 233))
              else
                (if s < 238 then (if s < 237 then 243 else 244) else (if s < 239 then 204 else 219))
          else
            if s < 0xf8 then
              if s < 0xf4 then
                (if s < 242 then (if s < 241 then 234 else 245) else (if s < 243 then 246 else 235))
              else
                (if s < 246 then (if s < 245 then 247 else 248) else (if s < 247 then 220 else 236))
            else
              if s < 0xfc then
                (if s < 250 then (if s < 249 then 249 else 250) else (if s < 251 then 237 else 251))
              else
                (if s < 254 then (if s < 253 then 252 else 253) else (if s < 255 then 254 else 255))
  }

  lemma Order_0(s: u8)
    requires 0 <= s < 64
    ensures StateInOrder(RankOf(s)) == s
  {
  }

  lemma Order_1(s: u8)
    requires 64 <= s < 128
    ensures StateInOrder(RankOf(s)) == s
  {
  }

  lemma Order_2(s: u8)
    requires 128 <= s < 192
    ensures StateInOrder(RankOf(s)) == s
  {
  }

  lemma Order_3(s: u8)
    requires 192 <= s < 256
    ensures StateInOrder(RankOf(s)) == s
  {
  }

  lemma StatesInOrder(s: u8)
    ensures StateInOrder(RankOf(s)) == s && RankInPlace(RankOf(s))
  {
    hide StateInOrder, RankOf, RankInPlace;
    RanksInPlace(RankOf(s));
    if s < 64 { Order_0(s); }
    else if s < 128 { Order_1(s); }
    else if s < 192 { Order_2(s); }
    else { Order_3(s); }
  }

  /** Different states have different paths. */
  lemma PathsAreDistinct(s: u8, t: u8)
    requires PathBits(s) == PathBits(t)
    ensures s == t
  {
    StatesInOrder(s);
    StatesInOrder(t);
    var m, n := NodeOf(s), NodeOf(t);
    assert |PathBits(s)| == m.len && |PathBits(t)| == n.len;
    InnerNodesFill(m.len);
    hide NodeOf, Limit, InnerBefore, StateInOrder, RankOf, Bits, Pow2;
    BitsInjective(m.val, n.val, m.len);
  }

  // Codes and inner nodes together fill a level of the tree.
  lemma {:induction false} InnerNodesFill(n: nat)
    requires n <= 29
    ensures Limit(n) + (InnerBefore(n + 1) - InnerBefore(n)) == Pow2(n)
  {
    if n > 0 {
      InnerNodesFill(n - 1);
      NextLevel(n - 1);
    }
  }

  lemma NextLevel(n: nat)
    requires n <= 28
    ensures InnerBefore(n + 2) - InnerBefore(n + 1) == 2 * (InnerBefore(n + 1) - InnerBefore(n)) - (Limit(n + 1) - First(n + 1))
  {
  }

  lemma {:induction false} InnerGrows(m: nat, n: nat)
    requires m <= n <= 30
    ensures InnerBefore(m) <= InnerBefore(n) <= 256
    decreases n - m
  {
    if m < n {
      OneLevelUp(m);
      InnerGrows(m + 1, n);
    }
  }

  lemma OneLevelUp(m: nat)
    requires m < 30
    ensures InnerBefore(m) <= InnerBefore(m + 1)
  {
  }

  /** The state whose node is at depth `n` and has the value `v`. */
  lemma InnerNodeIsState(n: nat, v: nat)
    requires n <= 29 && Limit(n) <= v < Pow2(n)
    ensures Rank(Node(n, v)) < 256 && NodeOf(StateInOrder(Rank(Node(n, v)))) == Node(n, v)
  {
    hide NodeOf, Limit, InnerBefore, StateInOrder, Pow2;
    var k := Rank(Node(n, v));
    InnerNodesFill(n);
    InnerGrows(n + 1, 30);
    RanksInPlace(k);
    var node := NodeOf(StateInOrder(k));
    if node.len < n {
      InnerGrows(node.len + 1, n);
    } else if node.len > n {
      InnerGrows(n + 1, node.len);
    }
  }

  /** Every proper prefix of a code is the path of a state. */
  lemma PrefixIsPath(x: nat, n: nat) returns (s: u8)
    requires x <= EOS && n < |CodeBits(x)|
    ensures PathBits(s) == CodeBits(x)[..n]
  {
    CodeInOrder(x);
    var c := EncodeEntry(x);
    hide EncodeEntry, NodeOf, Limit, Shorter, InOrder, InnerBefore, StateInOrder, Pow2, Bits;
    LimitBelowPow2(c.nbits);
    HalvedBits(c.code, n, c.nbits - n);
    BeyondShorter(c.code, c.nbits, c.nbits - n);
    var v := Halved(c.code, c.nbits - n);
    InnerNodeIsState(n, v);
    s := StateInOrder(Rank(Node(n, v)));
  }
}
