/** The lookup tables of the AES code: four entries a line. */
module AesTables {

  function Ft0(x: bv8): bv32 {
    if x < 0x10 then (
      if x < 0x08 then (if x < 0x04 then (if x < 0x02 then (if x < 0x01 then 0xa56363c6 else 0x847c7cf8) else if x < 0x03 then 0x997777ee else 0x8d7b7bf6)
      else if x < 0x06 then (if x < 0x05 then 0x0df2f2ff else 0xbd6b6bd6) else if x < 0x07 then 0xb16f6fde else 0x54c5c591)
      else if x < 0x0c then (if x < 0x0a then (if x < 0x09 then 0x50303060 else 0x03010102) else if x < 0x0b then 0xa96767ce else 0x7d2b2b56)
      else if x < 0x0e then (if x < 0x0d then 0x19fefee7 else 0x62d7d7b5) else if x < 0x0f then 0xe6abab4d else 0x9a7676ec
    ) else if x < 0x20 then (
      if x < 0x18 then (if x < 0x14 then (if x < 0x12 then (if x < 0x11 then 0x45caca8f else 0x9d82821f) else if x < 0x13 then 0x40c9c989 else 0x877d7dfa)
      else if x < 0x16 then (if x < 0x15 then 0x15fafaef else 0xeb5959b2) else if x < 0x17 then 0xc947478e else 0x0bf0f0fb)
      else if x < 0x1c then (if x < 0x1a then (if x < 0x19 then 0xecadad41 else 0x67d4d4b3) else if x < 0x1b then 0xfda2a25f else 0xeaafaf45)
      else if x < 0x1e then (if x < 0x1d then 0xbf9c9c23 else 0xf7a4a453) else if x < 0x1f then 0x967272e4 else 0x5bc0c09b
    ) else if x < 0x30 then (
      if x < 0x28 then (if x < 0x24 then (if x < 0x22 then (if x < 0x21 then 0xc2b7b775 else 0x1cfdfde1) else if x < 0x23 then 0xae93933d else 0x6a26264c)
      else if x < 0x26 then (if x < 0x25 then 0x5a36366c else 0x413f3f7e) else if x < 0x27 then 0x02f7f7f5 else 0x4fcccc83)
      else if x < 0x2c then (if x < 0x2a then (if x < 0x29 then 0x5c343468 else 0xf4a5a551) else if x < 0x2b then 0x34e5e5d1 else 0x08f1f1f9)
      else if x < 0x2e then (if x < 0x2d then 0x937171e2 else 0x73d8d8ab) else if x < 0x2f then 0x53313162 else 0x3f15152a
    ) else if x < 0x40 then (
      if x < 0x38 then (if x < 0x34 then (if x < 0x32 then (if x < 0x31 then 0x0c040408 else 0x52c7c795) else if x < 0x33 then 0x65232346 else 0x5ec3c39d)
      else if x < 0x36 then (if x < 0x35 then 0x28181830 else 0xa1969637) else if x < 0x37 then 0x0f05050a else 0xb59a9a2f)
      else if x < 0x3c then (if x < 0x3a then (if x < 0x39 then 0x0907070e else 0x36121224) else if x < 0x3b then 0x9b80801b else 0x3de2e2df)
      else if x < 0x3e then (if x < 0x3d then 0x26ebebcd else 0x6927274e) else if x < 0x3f then 0xcdb2b27f else 0x9f7575ea
    ) else if x < 0x50 then (
      if x < 0x48 then (if x < 0x44 then (if x < 0x42 then (if x < 0x41 then 0x1b090912 else 0x9e83831d) else if x < 0x43 then 0x742c2c58 else 0x2e1a1a34)
      else if x < 0x46 then (if x < 0x45 then 0x2d1b1b36 else 0xb26e6edc) else if x < 0x47 then 0xee5a5ab4 else 0xfba0a05b)
      else if x < 0x4c then (if x < 0x4a then (if x < 0x49 then 0xf65252a4 else 0x4d3b3b76) else if x < 0x4b then 0x61d6d6b7 else 0xceb3b37d)
      else if x < 0x4e then (if x < 0x4d then 0x7b292952 else 0x3ee3e3dd) else if x < 0x4f then 0x712f2f5e else 0x97848413
    ) else if x < 0x60 then (
      if x < 0x58 then (if x < 0x54 then (if x < 0x52 then (if x < 0x51 then 0xf55353a6 else 0x68d1d1b9) else if x < 0x53 then 0x00000000 else 0x2cededc1)
      else if x < 0x56 then (if x < 0x55 then 0x60202040 else 0x1ffcfce3) else if x < 0x57 then 0xc8b1b179 else 0xed5b5bb6)
      else if x < 0x5c then (if x < 0x5a then (if x < 0x59 then 0xbe6a6ad4 else 0x46cbcb8d) else if x < 0x5b then 0xd9bebe67 else 0x4b393972)
      else if x < 0x5e then (if x < 0x5d then 0xde4a4a94 else 0xd44c4c98) else if x < 0x5f then 0xe85858b0 else 0x4acfcf85
    ) else if x < 0x70 then (
      if x < 0x68 then (if x < 0x64 then (if x < 0x62 then (if x < 0x61 then 0x6bd0d0bb else 0x2aefefc5) else if x < 0x63 then 0xe5aaaa4f else 0x16fbfbed)
      else if x < 0x66 then (if x < 0x65 then 0xc5434386 else 0xd74d4d9a) else if x < 0x67 then 0x55333366 else 0x94858511)
      else if x < 0x6c then (if x < 0x6a then (if x < 0x69 then 0xcf45458a else 0x10f9f9e9) else if x < 0x6b then 0x06020204 else 0x817f7ffe)
      else if x < 0x6e then (if x < 0x6d then 0xf05050a0 else 0x443c3c78) else if x < 0x6f then 0xba9f9f25 else 0xe3a8a84b
    ) else if x < 0x80 then (
      if x < 0x78 then (if x < 0x74 then (if x < 0x72 then (if x < 0x71 then 0xf35151a2 else 0xfea3a35d) else if x < 0x73 then 0xc0404080 else 0x8a8f8f05)
      else if x < 0x76 then (if x < 0x75 then 0xad92923f else 0xbc9d9d21) else if x < 0x77 then 0x48383870 else 0x04f5f5f1)
      else if x < 0x7c then (if x < 0x7a then (if x < 0x79 then 0xdfbcbc63 else 0xc1b6b677) else if x < 0x7b then 0x75dadaaf else 0x63212142)
      else if x < 0x7e then (if x < 0x7d then 0x30101020 else 0x1affffe5) else if x < 0x7f then 0x0ef3f3fd else 0x6dd2d2bf
    ) else if x < 0x90 then (
      if x < 0x88 then (if x < 0x84 then (if x < 0x82 then (if x < 0x81 then 0x4ccdcd81 else 0x140c0c18) else if x < 0x83 then 0x35131326 else 0x2fececc3)
      else if x < 0x86 then (if x < 0x85 then 0xe15f5fbe else 0xa2979735) else if x < 0x87 then 0xcc444488 else 0x3917172e)
      else if x < 0x8c then (if x < 0x8a then (if x < 0x89 then 0x57c4c493 else 0xf2a7a755) else if x < 0x8b then 0x827e7efc else 0x473d3d7a)
      else if x < 0x8e then (if x < 0x8d then 0xac6464c8 else 0xe75d5dba) else if x < 0x8f then 0x2b191932 else 0x957373e6
    ) else if x < 0xa0 then (
      if x < 0x98 then (if x < 0x94 then (if x < 0x92 then (if x < 0x91 then 0xa06060c0 else 0x98818119) else if x < 0x93 then 0xd14f4f9e else 0x7fdcdca3)
      else if x < 0x96 then (if x < 0x95 then 0x66222244 else 0x7e2a2a54) else if x < 0x97 then 0xab90903b else 0x8388880b)
      else if x < 0x9c then (if x < 0x9a then (if x < 0x99 then 0xca46468c else 0x29eeeec7) else if x < 0x9b then 0xd3b8b86b else 0x3c141428)
      else if x < 0x9e then (if x < 0x9d then 0x79dedea7 else 0xe25e5ebc) else if x < 0x9f then 0x1d0b0b16 else 0x76dbdbad
    ) else if x < 0xb0 then (
      if x < 0xa8 then (if x < 0xa4 then (if x < 0xa2 then (if x < 0xa1 then 0x3be0e0db else 0x56323264) else if x < 0xa3 then 0x4e3a3a74 else 0x1e0a0a14)
      else if x < 0xa6 then (if x < 0xa5 then 0xdb494992 else 0x0a06060c) else if x < 0xa7 then 0x6c242448 else 0xe45c5cb8)
      else if x < 0xac then (if x < 0xaa then (if x < 0xa9 then 0x5dc2c29f else 0x6ed3d3bd) else if x < 0xab then 0xefacac43 else 0xa66262c4)
      else if x < 0xae then (if x < 0xad then 0xa8919139 else 0xa4959531) else if x < 0xaf then 0x37e4e4d3 else 0x8b7979f2
    ) else if x < 0xc0 then (
      if x < 0xb8 then (if x < 0xb4 then (if x < 0xb2 then (if x < 0xb1 then 0x32e7e7d5 else 0x43c8c88b) else if x < 0xb3 then 0x5937376e else 0xb76d6dda)
      else if x < 0xb6 then (if x < 0xb5 then 0x8c8d8d01 else 0x64d5d5b1) else if x < 0xb7 then 0xd24e4e9c else 0xe0a9a949)
      else if x < 0xbc then (if x < 0xba then (if x < 0xb9 then 0xb46c6cd8 else 0xfa5656ac) else if x < 0xbb then 0x07f4f4f3 else 0x25eaeacf)
      else if x < 0xbe then (if x < 0xbd then 0xaf6565ca else 0x8e7a7af4) else if x < 0xbf then 0xe9aeae47 else 0x18080810
    ) else if x < 0xd0 then (
      if x < 0xc8 then (if x < 0xc4 then (if x < 0xc2 then (if x < 0xc1 then 0xd5baba6f else 0x887878f0) else if x < 0xc3 then 0x6f25254a else 0x722e2e5c)
      else if x < 0xc6 then (if x < 0xc5 then 0x241c1c38 else 0xf1a6a657) else if x < 0xc7 then 0xc7b4b473 else 0x51c6c697)
      else if x < 0xcc then (if x < 0xca then (if x < 0xc9 then 0x23e8e8cb else 0x7cdddda1) else if x < 0xcb then 0x9c7474e8 else 0x211f1f3e)
      else if x < 0xce then (if x < 0xcd then 0xdd4b4b96 else 0xdcbdbd61) else if x < 0xcf then 0x868b8b0d else 0x858a8a0f
    ) else if x < 0xe0 then (
      if x < 0xd8 then (if x < 0xd4 then (if x < 0xd2 then (if x < 0xd1 then 0x907070e0 else 0x423e3e7c) else if x < 0xd3 then 0xc4b5b571 else 0xaa6666cc)
      else if x < 0xd6 then (if x < 0xd5 then 0xd8484890 else 0x05030306) else if x < 0xd7 then 0x01f6f6f7 else 0x120e0e1c)
      else if x < 0xdc then (if x < 0xda then (if x < 0xd9 then 0xa36161c2 else 0x5f35356a) else if x < 0xdb then 0xf95757ae else 0xd0b9b969)
      else if x < 0xde then (if x < 0xdd then 0x91868617 else 0x58c1c199) else if x < 0xdf then 0x271d1d3a else 0xb99e9e27
    ) else if x < 0xf0 then (
      if x < 0xe8 then (if x < 0xe4 then (if x < 0xe2 then (if x < 0xe1 then 0x38e1e1d9 else 0x13f8f8eb) else if x < 0xe3 then 0xb398982b else 0x33111122)
      else if x < 0xe6 then (if x < 0xe5 then 0xbb6969d2 else 0x70d9d9a9) else if x < 0xe7 then 0x898e8e07 else 0xa7949433)
      else if x < 0xec then (if x < 0xea then (if x < 0xe9 then 0xb69b9b2d else 0x221e1e3c) else if x < 0xeb then 0x92878715 else 0x20e9e9c9)
      else if x < 0xee then (if x < 0xed then 0x49cece87 else 0xff5555aa) else if x < 0xef then 0x78282850 else 0x7adfdfa5
    ) else (
      if x < 0xf8 then (if x < 0xf4 then (if x < 0xf2 then (if x < 0xf1 then 0x8f8c8c03 else 0xf8a1a159) else if x < 0xf3 then 0x80898909 else 0x170d0d1a)
      else if x < 0xf6 then (if x < 0xf5 then 0xdabfbf65 else 0x31e6e6d7) else if x < 0xf7 then 0xc6424284 else 0xb86868d0)
      else if x < 0xfc then (if x < 0xfa then (if x < 0xf9 then 0xc3414182 else 0xb0999929) else if x < 0xfb then 0x772d2d5a else 0x110f0f1e)
      else if x < 0xfe then (if x < 0xfd then 0xcbb0b07b else 0xfc5454a8) else if x < 0xff then 0xd6bbbb6d else 0x3a16162c
    )
  }

  function Ft1(x: bv8): bv32 {
    if x < 0x10 then (
      if x < 0x08 then (if x < 0x04 then (if x < 0x02 then (if x < 0x01 then 0x6363c6a5 else 0x7c7cf884) else if x < 0x03 then 0x7777ee99 else 0x7b7bf68d)
      else if x < 0x06 then (if x < 0x05 then 0xf2f2ff0d else 0x6b6bd6bd) else if x < 0x07 then 0x6f6fdeb1 else 0xc5c59154)
      else if x < 0x0c then (if x < 0x0a then (if x < 0x09 then 0x30306050 else 0x01010203) else if x < 0x0b then 0x6767cea9 else 0x2b2b567d)
      else if x < 0x0e then (if x < 0x0d then 0xfefee719 else 0xd7d7b562) else if x < 0x0f then 0xabab4de6 else 0x7676ec9a
    ) else if x < 0x20 then (
      if x < 0x18 then (if x < 0x14 then (if x < 0x12 then (if x < 0x11 then 0xcaca8f45 else 0x82821f9d) else if x < 0x13 then 0xc9c98940 else 0x7d7dfa87)
      else if x < 0x16 then (if x < 0x15 then 0xfafaef15 else 0x5959b2eb) else if x < 0x17 then 0x47478ec9 else 0xf0f0fb0b)
      else if x < 0x1c then (if x < 0x1a then (if x < 0x19 then 0xadad41ec else 0xd4d4b367) else if x < 0x1b then 0xa2a25ffd else 0xafaf45ea)
      else if x < 0x1e then (if x < 0x1d then 0x9c9c23bf else 0xa4a453f7) else if x < 0x1f then 0x7272e496 else 0xc0c09b5b
    ) else if x < 0x30 then (
      if x < 0x28 then (if x < 0x24 then (if x < 0x22 then (if x < 0x21 then 0xb7b775c2 else 0xfdfde11c) else if x < 0x23 then 0x93933dae else 0x26264c6a)
      else if x < 0x26 then (if x < 0x25 then 0x36366c5a else 0x3f3f7e41) else if x < 0x27 then 0xf7f7f502 else 0xcccc834f)
      else if x < 0x2c then (if x < 0x2a then (if x < 0x29 then 0x3434685c else 0xa5a551f4) else if x < 0x2b then 0xe5e5d134 else 0xf1f1f908)
      else if x < 0x2e then (if x < 0x2d then 0x7171e293 else 0xd8d8ab73) else if x < 0x2f then 0x31316253 else 0x15152a3f
    ) else if x < 0x40 then (
      if x < 0x38 then (if x < 0x34 then (if x < 0x32 then (if x < 0x31 then 0x0404080c else 0xc7c79552) else if x < 0x33 then 0x23234665 else 0xc3c39d5e)
      else if x < 0x36 then (if x < 0x35 then 0x18183028 else 0x969637a1) else if x < 0x37 then 0x05050a0f else 0x9a9a2fb5)
      else if x < 0x3c then (if x < 0x3a then (if x < 0x39 then 0x07070e09 else 0x12122436) else if x < 0x3b then 0x80801b9b else 0xe2e2df3d)
      else if x < 0x3e then (if x < 0x3d then 0xebebcd26 else 0x27274e69) else if x < 0x3f then 0xb2b27fcd else 0x7575ea9f
    ) else if x < 0x50 then (
      if x < 0x48 then (if x < 0x44 then (if x < 0x42 then (if x < 0x41 then 0x0909121b else 0x83831d9e) else if x < 0x43 then 0x2c2c5874 else 0x1a1a342e)
      else if x < 0x46 then (if x < 0x45 then 0x1b1b362d else 0x6e6edcb2) else if x < 0x47 then 0x5a5ab4ee else 0xa0a05bfb)
      else if x < 0x4c then (if x < 0x4a then (if x < 0x49 then 0x5252a4f6 else 0x3b3b764d) else if x < 0x4b then 0xd6d6b761 else 0xb3b37dce)
      else if x < 0x4e then (if x < 0x4d then 0x2929527b else 0xe3e3dd3e) else if x < 0x4f then 0x2f2f5e71 else 0x84841397
    ) else if x < 0x60 then (
      if x < 0x58 then (if x < 0x54 then (if x < 0x52 then (if x < 0x51 then 0x5353a6f5 else 0xd1d1b968) else if x < 0x53 then 0x00000000 else 0xededc12c)
      else if x < 0x56 then (if x < 0x55 then 0x20204060 else 0xfcfce31f) else if x < 0x57 then 0xb1b179c8 else 0x5b5bb6ed)
      else if x < 0x5c then (if x < 0x5a then (if x < 0x59 then 0x6a6ad4be else 0xcbcb8d46) else if x < 0x5b then 0xbebe67d9 else 0x3939724b)
      else if x < 0x5e then (if x < 0x5d then 0x4a4a94de else 0x4c4c98d4) else if x < 0x5f then 0x5858b0e8 else 0xcfcf854a
    ) else if x < 0x70 then (
      if x < 0x68 then (if x < 0x64 then (if x < 0x62 then (if x < 0x61 then 0xd0d0bb6b else 0xefefc52a) else if x < 0x63 then 0xaaaa4fe5 else 0xfbfbed16)
      else if x < 0x66 then (if x < 0x65 then 0x434386c5 else 0x4d4d9ad7) else if x < 0x67 then 0x33336655 else 0x85851194)
      else if x < 0x6c then (if x < 0x6a then (if x < 0x69 then 0x45458acf else 0xf9f9e910) else if x < 0x6b then 0x02020406 else 0x7f7ffe81)
      else if x < 0x6e then (if x < 0x6d then 0x5050a0f0 else 0x3c3c7844) else if x < 0x6f then 0x9f9f25ba else 0xa8a84be3
    ) else if x < 0x80 then (
      if x < 0x78 then (if x < 0x74 then (if x < 0x72 then (if x < 0x71 then 0x5151a2f3 else 0xa3a35dfe) else if x < 0x73 then 0x404080c0 else 0x8f8f058a)
      else if x < 0x76 then (if x < 0x75 then 0x92923fad else 0x9d9d21bc) else if x < 0x77 then 0x38387048 else 0xf5f5f104)
      else if x < 0x7c then (if x < 0x7a then (if x < 0x79 then 0xbcbc63df else 0xb6b677c1) else if x < 0x7b then 0xdadaaf75 else 0x21214263)
      else if x < 0x7e then (if x < 0x7d then 0x10102030 else 0xffffe51a) else if x < 0x7f then 0xf3f3fd0e else 0xd2d2bf6d
    ) else if x < 0x90 then (
      if x < 0x88 then (if x < 0x84 then (if x < 0x82 then (if x < 0x81 then 0xcdcd814c else 0x0c0c1814) else if x < 0x83 then 0x13132635 else 0xececc32f)
      else if x < 0x86 then (if x < 0x85 then 0x5f5fbee1 else 0x979735a2) else if x < 0x87 then 0x444488cc else 0x17172e39)
      else if x < 0x8c then (if x < 0x8a then (if x < 0x89 then 0xc4c49357 else 0xa7a755f2) else if x < 0x8b then 0x7e7efc82 else 0x3d3d7a47)
      else if x < 0x8e then (if x < 0x8d then 0x6464c8ac else 0x5d5dbae7) else if x < 0x8f then 0x1919322b else 0x7373e695
    ) else if x < 0xa0 then (
      if x < 0x98 then (if x < 0x94 then (if x < 0x92 then (if x < 0x91 then 0x6060c0a0 else 0x81811998) else if x < 0x93 then 0x4f4f9ed1 else 0xdcdca37f)
      else if x < 0x96 then (if x < 0x95 then 0x22224466 else 0x2a2a547e) else if x < 0x97 then 0x90903bab else 0x88880b83)
      else if x < 0x9c then (if x < 0x9a then (if x < 0x99 then 0x46468cca else 0xeeeec729) else if x < 0x9b then 0xb8b86bd3 else 0x1414283c)
      else if x < 0x9e then (if x < 0x9d then 0xdedea779 else 0x5e5ebce2) else if x < 0x9f then 0x0b0b161d else 0xdbdbad76
    ) else if x < 0xb0 then (
      if x < 0xa8 then (if x < 0xa4 then (if x < 0xa2 then (if x < 0xa1 then 0xe0e0db3b else 0x32326456) else if x < 0xa3 then 0x3a3a744e else 0x0a0a141e)
      else if x < 0xa6 then (if x < 0xa5 then 0x494992db else 0x06060c0a) else if x < 0xa7 then 0x2424486c else 0x5c5cb8e4)
      else if x < 0xac then (if x < 0xaa then (if x < 0xa9 then 0xc2c29f5d else 0xd3d3bd6e) else if x < 0xab then 0xacac43ef else 0x6262c4a6)
      else if x < 0xae then (if x < 0xad then 0x919139a8 else 0x959531a4) else if x < 0xaf then 0xe4e4d337 else 0x7979f28b
    ) else if x < 0xc0 then (
      if x < 0xb8 then (if x < 0xb4 then (if x < 0xb2 then (if x < 0xb1 then 0xe7e7d532 else 0xc8c88b43) else if x < 0xb3 then 0x37376e59 else 0x6d6ddab7)
      else if x < 0xb6 then (if x < 0xb5 then 0x8d8d018c else 0xd5d5b164) else if x < 0xb7 then 0x4e4e9cd2 else 0xa9a949e0)
      else if x < 0xbc then (if x < 0xba then (if x < 0xb9 then 0x6c6cd8b4 else 0x5656acfa) else if x < 0xbb then 0xf4f4f307 else 0xeaeacf25)
      else if x < 0xbe then (if x < 0xbd then 0x6565caaf else 0x7a7af48e) else if x < 0xbf then 0xaeae47e9 else 0x08081018
    ) else if x < 0xd0 then (
      if x < 0xc8 then (if x < 0xc4 then (if x < 0xc2 then (if x < 0xc1 then 0xbaba6fd5 else 0x7878f088) else if x < 0xc3 then 0x25254a6f else 0x2e2e5c72)
      else if x < 0xc6 then (if x < 0xc5 then 0x1c1c3824 else 0xa6a657f1) else if x < 0xc7 then 0xb4b473c7 else 0xc6c69751)
      else if x < 0xcc then (if x < 0xca then (if x < 0xc9 then 0xe8e8cb23 else 0xdddda17c) else if x < 0xcb then 0x7474e89c else 0x1f1f3e21)
      else if x < 0xce then (if x < 0xcd then 0x4b4b96dd else 0xbdbd61dc) else if x < 0xcf then 0x8b8b0d86 else 0x8a8a0f85
    ) else if x < 0xe0 then (
      if x < 0xd8 then (if x < 0xd4 then (if x < 0xd2 then (if x < 0xd1 then 0x7070e090 else 0x3e3e7c42) else if x < 0xd3 then 0xb5b571c4 else 0x6666ccaa)
      else if x < 0xd6 then (if x < 0xd5 then 0x484890d8 else 0x03030605) else if x < 0xd7 then 0xf6f6f701 else 0x0e0e1c12)
      else if x < 0xdc then (if x < 0xda then (if x < 0xd9 then 0x6161c2a3 else 0x35356a5f) else if x < 0xdb then 0x5757aef9 else 0xb9b969d0)
      else if x < 0xde then (if x < 0xdd then 0x86861791 else 0xc1c19958) else if x < 0xdf then 0x1d1d3a27 else 0x9e9e27b9
    ) else if x < 0xf0 then (
      if x < 0xe8 then (if x < 0xe4 then (if x < 0xe2 then (if x < 0xe1 then 0xe1e1d938 else 0xf8f8eb13) else if x < 0xe3 then 0x98982bb3 else 0x11112233)
      else if x < 0xe6 then (if x < 0xe5 then 0x6969d2bb else 0xd9d9a970) else if x < 0xe7 then 0x8e8e0789 else 0x949433a7)
      else if x < 0xec then (if x < 0xea then (if x < 0xe9 then 0x9b9b2db6 else 0x1e1e3c22) else if x < 0xeb then 0x87871592 else 0xe9e9c920)
      else if x < 0xee then (if x < 0xed then 0xcece8749 else 0x5555aaff) else if x < 0xef then 0x28285078 else 0xdfdfa57a
    ) else (
      if x < 0xf8 then (if x < 0xf4 then (if x < 0xf2 then (if x < 0xf1 then 0x8c8c038f else 0xa1a159f8) else if x < 0xf3 then 0x89890980 else 0x0d0d1a17)
      else if x < 0xf6 then (if x < 0xf5 then 0xbfbf65da else 0xe6e6d731) else if x < 0xf7 then 0x424284c6 else 0x6868d0b8)
      else if x < 0xfc then (if x < 0xfa then (if x < 0xf9 then 0x414182c3 else 0x999929b0) else if x < 0xfb then 0x2d2d5a77 else 0x0f0f1e11)
      else if x < 0xfe then (if x < 0xfd then 0xb0b07bcb else 0x5454a8fc) else if x < 0xff then 0xbbbb6dd6 else 0x16162c3a
    )
  }

  function Ft2(x: bv8): bv32 {
    if x < 0x10 then (
      if x < 0x08 then (if x < 0x04 then (if x < 0x02 then (if x < 0x01 then 0x63c6a563 else 0x7cf8847c) else if x < 0x03 then 0x77ee9977 else 0x7bf68d7b)
      else if x < 0x06 then (if x < 0x05 then 0xf2ff0df2 else 0x6bd6bd6b) else if x < 0x07 then 0x6fdeb16f else 0xc59154c5)
      else if x < 0x0c then (if x < 0x0a then (if x < 0x09 then 0x30605030 else 0x01020301) else if x < 0x0b then 0x67cea967 else 0x2b567d2b)
      else if x < 0x0e then (if x < 0x0d then 0xfee719fe else 0xd7b562d7) else if x < 0x0f then 0xab4de6ab else 0x76ec9a76
    ) else if x < 0x20 then (
      if x < 0x18 then (if x < 0x14 then (if x < 0x12 then (if x < 0x11 then 0xca8f45ca else 0x821f9d82) else if x < 0x13 then 0xc98940c9 else 0x7dfa877d)
      else if x < 0x16 then (if x < 0x15 then 0xfaef15fa else 0x59b2eb59) else if x < 0x17 then 0x478ec947 else 0xf0fb0bf0)
      else if x < 0x1c then (if x < 0x1a then (if x < 0x19 then 0xad41ecad else 0xd4b367d4) else if x < 0x1b then 0xa25ffda2 else 0xaf45eaaf)
      else if x < 0x1e then (if x < 0x1d then 0x9c23bf9c else 0xa453f7a4) else if x < 0x1f then 0x72e49672 else 0xc09b5bc0
    ) else if x < 0x30 then (
      if x < 0x28 then (if x < 0x24 then (if x < 0x22 then (if x < 0x21 then 0xb775c2b7 else 0xfde11cfd) else if x < 0x23 then 0x933dae93 else 0x264c6a26)
      else if x < 0x26 then (if x < 0x25 then 0x366c5a36 else 0x3f7e413f) else if x < 0x27 then 0xf7f502f7 else 0xcc834fcc)
      else if x < 0x2c then (if x < 0x2a then (if x < 0x29 then 0x34685c34 else 0xa551f4a5) else if x < 0x2b then 0xe5d134e5 else 0xf1f908f1)
      else if x < 0x2e then (if x < 0x2d then 0x71e29371 else 0xd8ab73d8) else if x < 0x2f then 0x31625331 else 0x152a3f15
    ) else if x < 0x40 then (
      if x < 0x38 then (if x < 0x34 then (if x < 0x32 then (if x < 0x31 then 0x04080c04 else 0xc79552c7) else if x < 0x33 then 0x23466523 else 0xc39d5ec3)
      else if x < 0x36 then (if x < 0x35 then 0x18302818 else 0x9637a196) else if x < 0x37 then 0x050a0f05 else 0x9a2fb59a)
      else if x < 0x3c then (if x < 0x3a then (if x < 0x39 then 0x070e0907 else 0x12243612) else if x < 0x3b then 0x801b9b80 else 0xe2df3de2)
      else if x < 0x3e then (if x < 0x3d then 0xebcd26eb else 0x274e6927) else if x < 0x3f then 0xb27fcdb2 else 0x75ea9f75
    ) else if x < 0x50 then (
      if x < 0x48 then (if x < 0x44 then (if x < 0x42 then (if x < 0x41 then 0x09121b09 else 0x831d9e83) else if x < 0x43 then 0x2c58742c else 0x1a342e1a)
      else if x < 0x46 then (if x < 0x45 then 0x1b362d1b else 0x6edcb26e) else if x < 0x47 then 0x5ab4ee5a else 0xa05bfba0)
      else if x < 0x4c then (if x < 0x4a then (if x < 0x49 then 0x52a4f652 else 0x3b764d3b) else if x < 0x4b then 0xd6b761d6 else 0xb37dceb3)
      else if x < 0x4e then (if x < 0x4d then 0x29527b29 else 0xe3dd3ee3) else if x < 0x4f then 0x2f5e712f else 0x84139784
    ) else if x < 0x60 then (
      if x < 0x58 then (if x < 0x54 then (if x < 0x52 then (if x < 0x51 then 0x53a6f553 else 0xd1b968d1) else if x < 0x53 then 0x00000000 else 0xedc12ced)
      else if x < 0x56 then (if x < 0x55 then 0x20406020 else 0xfce31ffc) else if x < 0x57 then 0xb179c8b1 else 0x5bb6ed5b)
      else if x < 0x5c then (if x < 0x5a then (if x < 0x59 then 0x6ad4be6a else 0xcb8d46cb) else if x < 0x5b then 0xbe67d9be else 0x39724b39)
      else if x < 0x5e then (if x < 0x5d then 0x4a94de4a else 0x4c98d44c) else if x < 0x5f then 0x58b0e858 else 0xcf854acf
    ) else if x < 0x70 then (
      if x < 0x68 then (if x < 0x64 then (if x < 0x62 then (if x < 0x61 then 0xd0bb6bd0 else 0xefc52aef) else if x < 0x63 then 0xaa4fe5aa else 0xfbed16fb)
      else if x < 0x66 then (if x < 0x65 then 0x4386c543 else 0x4d9ad74d) else if x < 0x67 then 0x33665533 else 0x85119485)
      else if x < 0x6c then (if x < 0x6a then (if x < 0x69 then 0x458acf45 else 0xf9e910f9) else if x < 0x6b then 0x02040602 else 0x7ffe817f)
      else if x < 0x6e then (if x < 0x6d then 0x50a0f050 else 0x3c78443c) else if x < 0x6f then 0x9f25ba9f else 0xa84be3a8
    ) else if x < 0x80 then (
      if x < 0x78 then (if x < 0x74 then (if x < 0x72 then (if x < 0x71 then 0x51a2f351 else 0xa35dfea3) else if x < 0x73 then 0x4080c040 else 0x8f058a8f)
      else if x < 0x76 then (if x < 0x75 then 0x923fad92 else 0x9d21bc9d) else if x < 0x77 then 0x38704838 else 0xf5f104f5)
      else if x < 0x7c then (if x < 0x7a then (if x < 0x79 then 0xbc63dfbc else 0xb677c1b6) else if x < 0x7b then 0xdaaf75da else 0x21426321)
      else if x < 0x7e then (if x < 0x7d then 0x10203010 else 0xffe51aff) else if x < 0x7f then 0xf3fd0ef3 else 0xd2bf6dd2
    ) else if x < 0x90 then (
      if x < 0x88 then (if x < 0x84 then (if x < 0x82 then (if x < 0x81 then 0xcd814ccd else 0x0c18140c) else if x < 0x83 then 0x13263513 else 0xecc32fec)
      else if x < 0x86 then (if x < 0x85 then 0x5fbee15f else 0x9735a297) else if x < 0x87 then 0x4488cc44 else 0x172e3917)
      else if x < 0x8c then (if x < 0x8a then (if x < 0x89 then 0xc49357c4 else 0xa755f2a7) else if x < 0x8b then 0x7efc827e else 0x3d7a473d)
      else if x < 0x8e then (if x < 0x8d then 0x64c8ac64 else 0x5dbae75d) else if x < 0x8f then 0x19322b19 else 0x73e69573
    ) else if x < 0xa0 then (
      if x < 0x98 then (if x < 0x94 then (if x < 0x92 then (if x < 0x91 then 0x60c0a060 else 0x81199881) else if x < 0x93 then 0x4f9ed14f else 0xdca37fdc)
      else if x < 0x96 then (if x < 0x95 then 0x22446622 else 0x2a547e2a) else if x < 0x97 then 0x903bab90 else 0x880b8388)
      else if x < 0x9c then (if x < 0x9a then (if x < 0x99 then 0x468cca46 else 0xeec729ee) else if x < 0x9b then 0xb86bd3b8 else 0x14283c14)
      else if x < 0x9e then (if x < 0x9d then 0xdea779de else 0x5ebce25e) else if x < 0x9f then 0x0b161d0b else 0xdbad76db
    ) else if x < 0xb0 then (
      if x < 0xa8 then (if x < 0xa4 then (if x < 0xa2 then (if x < 0xa1 then 0xe0db3be0 else 0x32645632) else if x < 0xa3 then 0x3a744e3a else 0x0a141e0a)
      else if x < 0xa6 then (if x < 0xa5 then 0x4992db49 else 0x060c0a06) else if x < 0xa7 then 0x24486c24 else 0x5cb8e45c)
      else if x < 0xac then (if x < 0xaa then (if x < 0xa9 then 0xc29f5dc2 else 0xd3bd6ed3) else if x < 0xab then 0xac43efac else 0x62c4a662)
      else if x < 0xae then (if x < 0xad then 0x9139a891 else 0x9531a495) else if x < 0xaf then 0xe4d337e4 else 0x79f28b79
    ) else if x < 0xc0 then (
      if x < 0xb8 then (if x < 0xb4 then (if x < 0xb2 then (if x < 0xb1 then 0xe7d532e7 else 0xc88b43c8) else if x < 0xb3 then 0x376e5937 else 0x6ddab76d)
      else if x < 0xb6 then (if x < 0xb5 then 0x8d018c8d else 0xd5b164d5) else if x < 0xb7 then 0x4e9cd24e else 0xa949e0a9)
      else if x < 0xbc then (if x < 0xba then (if x < 0xb9 then 0x6cd8b46c else 0x56acfa56) else if x < 0xbb then 0xf4f307f4 else 0xeacf25ea)
      else if x < 0xbe then (if x < 0xbd then 0x65caaf65 else 0x7af48e7a) else if x < 0xbf then 0xae47e9ae else 0x08101808
    ) else if x < 0xd0 then (
      if x < 0xc8 then (if x < 0xc4 then (if x < 0xc2 then (if x < 0xc1 then 0xba6fd5ba else 0x78f08878) else if x < 0xc3 then 0x254a6f25 else 0x2e5c722e)
      else if x < 0xc6 then (if x < 0xc5 then 0x1c38241c else 0xa657f1a6) else if x < 0xc7 then 0xb473c7b4 else 0xc69751c6)
      else if x < 0xcc then (if x < 0xca then (if x < 0xc9 then 0xe8cb23e8 else 0xdda17cdd) else if x < 0xcb then 0x74e89c74 else 0x1f3e211f)
      else if x < 0xce then (if x < 0xcd then 0x4b96dd4b else 0xbd61dcbd) else if x < 0xcf then 0x8b0d868b else 0x8a0f858a
    ) else if x < 0xe0 then (
      if x < 0xd8 then (if x < 0xd4 then (if x < 0xd2 then (if x < 0xd1 then 0x70e09070 else 0x3e7c423e) else if x < 0xd3 then 0xb571c4b5 else 0x66ccaa66)
      else if x < 0xd6 then (if x < 0xd5 then 0x4890d848 else 0x03060503) else if x < 0xd7 then 0xf6f701f6 else 0x0e1c120e)
      else if x < 0xdc then (if x < 0xda then (if x < 0xd9 then 0x61c2a361 else 0x356a5f35) else if x < 0xdb then 0x57aef957 else 0xb969d0b9)
      else if x < 0xde then (if x < 0xdd then 0x86179186 else 0xc19958c1) else if x < 0xdf then 0x1d3a271d else 0x9e27b99e
    ) else if x < 0xf0 then (
      if x < 0xe8 then (if x < 0xe4 then (if x < 0xe2 then (if x < 0xe1 then 0xe1d938e1 else 0xf8eb13f8) else if x < 0xe3 then 0x982bb398 else 0x11223311)
      else if x < 0xe6 then (if x < 0xe5 then 0x69d2bb69 else 0xd9a970d9) else if x < 0xe7 then 0x8e07898e else 0x9433a794)
      else if x < 0xec then (if x < 0xea then (if x < 0xe9 then 0x9b2db69b else 0x1e3c221e) else if x < 0xeb then 0x87159287 else 0xe9c920e9)
      else if x < 0xee then (if x < 0xed then 0xce8749ce else 0x55aaff55) else if x < 0xef then 0x28507828 else 0xdfa57adf
    ) else (
      if x < 0xf8 then (if x < 0xf4 then (if x < 0xf2 then (if x < 0xf1 then 0x8c038f8c else 0xa159f8a1) else if x < 0xf3 then 0x89098089 else 0x0d1a170d)
      else if x < 0xf6 then (if x < 0xf5 then 0xbf65dabf else 0xe6d731e6) else if x < 0xf7 then 0x4284c642 else 0x68d0b868)
      else if x < 0xfc then (if x < 0xfa then (if x < 0xf9 then 0x4182c341 else 0x9929b099) else if x < 0xfb then 0x2d5a772d else 0x0f1e110f)
      else if x < 0xfe then (if x < 0xfd then 0xb07bcbb0 else 0x54a8fc54) else if x < 0xff then 0xbb6dd6bb else 0x162c3a16
    )
  }

  function Ft3(x: bv8): bv32 {
    if x < 0x10 then (
      if x < 0x08 then (if x < 0x04 then (if x < 0x02 then (if x < 0x01 then 0xc6a56363 else 0xf8847c7c) else if x < 0x03 then 0xee997777 else 0xf68d7b7b)
      else if x < 0x06 then (if x < 0x05 then 0xff0df2f2 else 0xd6bd6b6b) else if x < 0x07 then 0xdeb16f6f else 0x9154c5c5)
      else if x < 0x0c then (if x < 0x0a then (if x < 0x09 then 0x60503030 else 0x02030101) else if x < 0x0b then 0xcea96767 else 0x567d2b2b)
      else if x < 0x0e then (if x < 0x0d then 0xe719fefe else 0xb562d7d7) else if x < 0x0f then 0x4de6abab else 0xec9a7676
    ) else if x < 0x20 then (
      if x < 0x18 then (if x < 0x14 then (if x < 0x12 then (if x < 0x11 then 0x8f45caca else 0x1f9d8282) else if x < 0x13 then 0x8940c9c9 else 0xfa877d7d)
      else if x < 0x16 then (if x < 0x15 then 0xef15fafa else 0xb2eb5959) else if x < 0x17 then 0x8ec94747 else 0xfb0bf0f0)
      else if x < 0x1c then (if x < 0x1a then (if x < 0x19 then 0x41ecadad else 0xb367d4d4) else if x < 0x1b then 0x5ffda2a2 else 0x45eaafaf)
      else if x < 0x1e then (if x < 0x1d then 0x23bf9c9c else 0x53f7a4a4) else if x < 0x1f then 0xe4967272 else 0x9b5bc0c0
    ) else if x < 0x30 then (
      if x < 0x28 then (if x < 0x24 then (if x < 0x22 then (if x < 0x21 then 0x75c2b7b7 else 0xe11cfdfd) else if x < 0x23 then 0x3dae9393 else 0x4c6a2626)
      else if x < 0x26 then (if x < 0x25 then 0x6c5a3636 else 0x7e413f3f) else if x < 0x27 then 0xf502f7f7 else 0x834fcccc)
      else if x < 0x2c then (if x < 0x2a then (if x < 0x29 then 0x685c3434 else 0x51f4a5a5) else if x < 0x2b then 0xd134e5e5 else 0xf908f1f1)
      else if x < 0x2e then (if x < 0x2d then 0xe2937171 else 0xab73d8d8) else if x < 0x2f then 0x62533131 else 0x2a3f1515
    ) else if x < 0x40 then (
      if x < 0x38 then (if x < 0x34 then (if x < 0x32 then (if x < 0x31 then 0x080c0404 else 0x9552c7c7) else if x < 0x33 then 0x46652323 else 0x9d5ec3c3)
      else if x < 0x36 then (if x < 0x35 then 0x30281818 else 0x37a19696) else if x < 0x37 then 0x0a0f0505 else 0x2fb59a9a)
      else if x < 0x3c then (if x < 0x3a then (if x < 0x39 then 0x0e090707 else 0x24361212) else if x < 0x3b then 0x1b9b8080 else 0xdf3de2e2)
      else if x < 0x3e then (if x < 0x3d then 0xcd26ebeb else 0x4e692727) else if x < 0x3f then 0x7fcdb2b2 else 0xea9f7575
    ) else if x < 0x50 then (
      if x < 0x48 then (if x < 0x44 then (if x < 0x42 then (if x < 0x41 then 0x121b0909 else 0x1d9e8383) else if x < 0x43 then 0x58742c2c else 0x342e1a1a)
      else if x < 0x46 then (if x < 0x45 then 0x362d1b1b else 0xdcb26e6e) else if x < 0x47 then 0xb4ee5a5a else 0x5bfba0a0)
      else if x < 0x4c then (if x < 0x4a then (if x < 0x49 then 0xa4f65252 else 0x764d3b3b) else if x < 0x4b then 0xb761d6d6 else 0x7dceb3b3)
      else if x < 0x4e then (if x < 0x4d then 0x527b2929 else 0xdd3ee3e3) else if x < 0x4f then 0x5e712f2f else 0x13978484
    ) else if x < 0x60 then (
      if x < 0x58 then (if x < 0x54 then (if x < 0x52 then (if x < 0x51 then 0xa6f55353 else 0xb968d1d1) else if x < 0x53 then 0x00000000 else 0xc12ceded)
      else if x < 0x56 then (if x < 0x55 then 0x40602020 else 0xe31ffcfc) else if x < 0x57 then 0x79c8b1b1 else 0xb6ed5b5b)
      else if x < 0x5c then (if x < 0x5a then (if x < 0x59 then 0xd4be6a6a else 0x8d46cbcb) else if x < 0x5b then 0x67d9bebe else 0x724b3939)
      else if x < 0x5e then (if x < 0x5d then 0x94de4a4a else 0x98d44c4c) else if x < 0x5f then 0xb0e85858 else 0x854acfcf
    ) else if x < 0x70 then (
      if x < 0x68 then (if x < 0x64 then (if x < 0x62 then (if x < 0x61 then 0xbb6bd0d0 else 0xc52aefef) else if x < 0x63 then 0x4fe5aaaa else 0xed16fbfb)
      else if x < 0x66 then (if x < 0x65 then 0x86c54343 else 0x9ad74d4d) else if x < 0x67 then 0x66553333 else 0x11948585)
      else if x < 0x6c then (if x < 0x6a then (if x < 0x69 then 0x8acf4545 else 0xe910f9f9) else if x < 0x6b then 0x04060202 else 0xfe817f7f)
      else if x < 0x6e then (if x < 0x6d then 0xa0f05050 else 0x78443c3c) else if x < 0x6f then 0x25ba9f9f else 0x4be3a8a8
    ) else if x < 0x80 then (
      if x < 0x78 then (if x < 0x74 then (if x < 0x72 then (if x < 0x71 then 0xa2f35151 else 0x5dfea3a3) else if x < 0x73 then 0x80c04040 else 0x058a8f8f)
      else if x < 0x76 then (if x < 0x75 then 0x3fad9292 else 0x21bc9d9d) else if x < 0x77 then 0x70483838 else 0xf104f5f5)
      else if x < 0x7c then (if x < 0x7a then (if x < 0x79 then 0x63dfbcbc else 0x77c1b6b6) else if x < 0x7b then 0xaf75dada else 0x42632121)
      else if x < 0x7e then (if x < 0x7d then 0x20301010 else 0xe51affff) else if x < 0x7f then 0xfd0ef3f3 else 0xbf6dd2d2
    ) else if x < 0x90 then (
      if x < 0x88 then (if x < 0x84 then (if x < 0x82 then (if x < 0x81 then 0x814ccdcd else 0x18140c0c) else if x < 0x83 then 0x26351313 else 0xc32fecec)
      else if x < 0x86 then (if x < 0x85 then 0xbee15f5f else 0x35a29797) else if x < 0x87 then 0x88cc4444 else 0x2e391717)
      else if x < 0x8c then (if x < 0x8a then (if x < 0x89 then 0x9357c4c4 else 0x55f2a7a7) else if x < 0x8b then 0xfc827e7e else 0x7a473d3d)
      else if x < 0x8e then (if x < 0x8d then 0xc8ac6464 else 0xbae75d5d) else if x < 0x8f then 0x322b1919 else 0xe6957373
    ) else if x < 0xa0 then (
      if x < 0x98 then (if x < 0x94 then (if x < 0x92 then (if x < 0x91 then 0xc0a06060 else 0x19988181) else if x < 0x93 then 0x9ed14f4f else 0xa37fdcdc)
      else if x < 0x96 then (if x < 0x95 then 0x44662222 else 0x547e2a2a) else if x < 0x97 then 0x3bab9090 else 0x0b838888)
      else if x < 0x9c then (if x < 0x9a then (if x < 0x99 then 0x8cca4646 else 0xc729eeee) else if x < 0x9b then 0x6bd3b8b8 else 0x283c1414)
      else if x < 0x9e then (if x < 0x9d then 0xa779dede else 0xbce25e5e) else if x < 0x9f then 0x161d0b0b else 0xad76dbdb
    ) else if x < 0xb0 then (
      if x < 0xa8 then (if x < 0xa4 then (if x < 0xa2 then (if x < 0xa1 then 0xdb3be0e0 else 0x64563232) else if x < 0xa3 then 0x744e3a3a else 0x141e0a0a)
      else if x < 0xa6 then (if x < 0xa5 then 0x92db4949 else 0x0c0a0606) else if x < 0xa7 then 0x486c2424 else 0xb8e45c5c)
      else if x < 0xac then (if x < 0xaa then (if x < 0xa9 then 0x9f5dc2c2 else 0xbd6ed3d3) else if x < 0xab then 0x43efacac else 0xc4a66262)
      else if x < 0xae then (if x < 0xad then 0x39a89191 else 0x31a49595) else if x < 0xaf then 0xd337e4e4 else 0xf28b7979
    ) else if x < 0xc0 then (
      if x < 0xb8 then (if x < 0xb4 then (if x < 0xb2 then (if x < 0xb1 then 0xd532e7e7 else 0x8b43c8c8) else if x < 0xb3 then 0x6e593737 else 0xdab76d6d)
      else if x < 0xb6 then (if x < 0xb5 then 0x018c8d8d else 0xb164d5d5) else if x < 0xb7 then 0x9cd24e4e else 0x49e0a9a9)
      else if x < 0xbc then (if x < 0xba then (if x < 0xb9 then 0xd8b46c6c else 0xacfa5656) else if x < 0xbb then 0xf307f4f4 else 0xcf25eaea)
      else if x < 0xbe then (if x < 0xbd then 0xcaaf6565 else 0xf48e7a7a) else if x < 0xbf then 0x47e9aeae else 0x10180808
    ) else if x < 0xd0 then (
      if x < 0xc8 then (if x < 0xc4 then (if x < 0xc2 then (if x < 0xc1 then 0x6fd5baba else 0xf0887878) else if x < 0xc3 then 0x4a6f2525 else 0x5c722e2e)
      else if x < 0xc6 then (if x < 0xc5 then 0x38241c1c else 0x57f1a6a6) else if x < 0xc7 then 0x73c7b4b4 else 0x9751c6c6)
      else if x < 0xcc then (if x < 0xca then (if x < 0xc9 then 0xcb23e8e8 else 0xa17cdddd) else if x < 0xcb then 0xe89c7474 else 0x3e211f1f)
      else if x < 0xce then (if x < 0xcd then 0x96dd4b4b else 0x61dcbdbd) else if x < 0xcf then 0x0d868b8b else 0x0f858a8a
    ) else if x < 0xe0 then (
      if x < 0xd8 then (if x < 0xd4 then (if x < 0xd2 then (if x < 0xd1 then 0xe0907070 else 0x7c423e3e) else if x < 0xd3 then 0x71c4b5b5 else 0xccaa6666)
      else if x < 0xd6 then (if x < 0xd5 then 0x90d84848 else 0x06050303) else if x < 0xd7 then 0xf701f6f6 else 0x1c120e0e)
      else if x < 0xdc then (if x < 0xda then (if x < 0xd9 then 0xc2a36161 else 0x6a5f3535) else if x < 0xdb then 0xaef95757 else 0x69d0b9b9)
      else if x < 0xde then (if x < 0xdd then 0x17918686 else 0x9958c1c1) else if x < 0xdf then 0x3a271d1d else 0x27b99e9e
    ) else if x < 0xf0 then (
      if x < 0xe8 then (if x < 0xe4 then (if x < 0xe2 then (if x < 0xe1 then 0xd938e1e1 else 0xeb13f8f8) else if x < 0xe3 then 0x2bb39898 else 0x22331111)
      else if x < 0xe6 then (if x < 0xe5 then 0xd2bb6969 else 0xa970d9d9) else if x < 0xe7 then 0x07898e8e else 0x33a79494)
      else if x < 0xec then (if x < 0xea then (if x < 0xe9 then 0x2db69b9b else 0x3c221e1e) else if x < 0xeb then 0x15928787 else 0xc920e9e9)
      else if x < 0xee then (if x < 0xed then 0x8749cece else 0xaaff5555) else if x < 0xef then 0x50782828 else 0xa57adfdf
    ) else (
      if x < 0xf8 then (if x < 0xf4 then (if x < 0xf2 then (if x < 0xf1 then 0x038f8c8c else 0x59f8a1a1) else if x < 0xf3 then 0x09808989 else 0x1a170d0d)
      else if x < 0xf6 then (if x < 0xf5 then 0x65dabfbf else 0xd731e6e6) else if x < 0xf7 then 0x84c64242 else 0xd0b86868)
      else if x < 0xfc then (if x < 0xfa then (if x < 0xf9 then 0x82c34141 else 0x29b09999) else if x < 0xfb then 0x5a772d2d else 0x1e110f0f)
      else if x < 0xfe then (if x < 0xfd then 0x7bcbb0b0 else 0xa8fc5454) else if x < 0xff then 0x6dd6bbbb else 0x2c3a1616
    )
  }

  function Fl0(x: bv8): bv32 {
    if x < 0x10 then (
      if x < 0x08 then (if x < 0x04 then (if x < 0x02 then (if x < 0x01 then 0x00000063 else 0x0000007c) else if x < 0x03 then 0x00000077 else 0x0000007b)
      else if x < 0x06 then (if x < 0x05 then 0x000000f2 else 0x0000006b) else if x < 0x07 then 0x0000006f else 0x000000c5)
      else if x < 0x0c then (if x < 0x0a then (if x < 0x09 then 0x00000030 else 0x00000001) else if x < 0x0b then 0x00000067 else 0x0000002b)
      else if x < 0x0e then (if x < 0x0d then 0x000000fe else 0x000000d7) else if x < 0x0f then 0x000000ab else 0x00000076
    ) else if x < 0x20 then (
      if x < 0x18 then (if x < 0x14 then (if x < 0x12 then (if x < 0x11 then 0x000000ca else 0x00000082) else if x < 0x13 then 0x000000c9 else 0x0000007d)
      else if x < 0x16 then (if x < 0x15 then 0x000000fa else 0x00000059) else if x < 0x17 then 0x00000047 else 0x000000f0)
      else if x < 0x1c then (if x < 0x1a then (if x < 0x19 then 0x000000ad else 0x000000d4) else if x < 0x1b then 0x000000a2 else 0x000000af)
      else if x < 0x1e then (if x < 0x1d then 0x0000009c else 0x000000a4) else if x < 0x1f then 0x00000072 else 0x000000c0
    ) else if x < 0x30 then (
      if x < 0x28 then (if x < 0x24 then (if x < 0x22 then (if x < 0x21 then 0x000000b7 else 0x000000fd) else if x < 0x23 then 0x00000093 else 0x00000026)
      else if x < 0x26 then (if x < 0x25 then 0x00000036 else 0x0000003f) else if x < 0x27 then 0x000000f7 else 0x000000cc)
      else if x < 0x2c then (if x < 0x2a then (if x < 0x29 then 0x00000034 else 0x000000a5) else if x < 0x2b then 0x000000e5 else 0x000000f1)
      else if x < 0x2e then (if x < 0x2d then 0x00000071 else 0x000000d8) else if x < 0x2f then 0x00000031 else 0x00000015
    ) else if x < 0x40 then (
      if x < 0x38 then (if x < 0x34 then (if x < 0x32 then (if x < 0x31 then 0x00000004 else 0x000000c7) else if x < 0x33 then 0x00000023 else 0x000000c3)
      else if x < 0x36 then (if x < 0x35 then 0x00000018 else 0x00000096) else if x < 0x37 then 0x00000005 else 0x0000009a)
      else if x < 0x3c then (if x < 0x3a then (if x < 0x39 then 0x00000007 else 0x00000012) else if x < 0x3b then 0x00000080 else 0x000000e2)
      else if x < 0x3e then (if x < 0x3d then 0x000000eb else 0x00000027) else if x < 0x3f then 0x000000b2 else 0x00000075
    ) else if x < 0x50 then (
      if x < 0x48 then (if x < 0x44 then (if x < 0x42 then (if x < 0x41 then 0x00000009 else 0x00000083) else if x < 0x43 then 0x0000002c else 0x0000001a)
      else if x < 0x46 then (if x < 0x45 then 0x0000001b else 0x0000006e) else if x < 0x47 then 0x0000005a else 0x000000a0)
      else if x < 0x4c then (if x < 0x4a then (if x < 0x49 then 0x00000052 else 0x0000003b) else if x < 0x4b then 0x000000d6 else 0x000000b3)
      else if x < 0x4e then (if x < 0x4d then 0x00000029 else 0x000000e3) else if x < 0x4f then 0x0000002f else 0x00000084
    ) else if x < 0x60 then (
      if x < 0x58 then (if x < 0x54 then (if x < 0x52 then (if x < 0x51 then 0x00000053 else 0x000000d1) else if x < 0x53 then 0x00000000 else 0x000000ed)
      else if x < 0x56 then (if x < 0x55 then 0x00000020 else 0x000000fc) else if x < 0x57 then 0x000000b1 else 0x0000005b)
      else if x < 0x5c then (if x < 0x5a then (if x < 0x59 then 0x0000006a else 0x000000cb) else if x < 0x5b then 0x000000be else 0x00000039)
      else if x < 0x5e then (if x < 0x5d then 0x0000004a else 0x0000004c) else if x < 0x5f then 0x00000058 else 0x000000cf
    ) else if x < 0x70 then (
      if x < 0x68 then (if x < 0x64 then (if x < 0x62 then (if x < 0x61 then 0x000000d0 else 0x000000ef) else if x < 0x63 then 0x000000aa else 0x000000fb)
      else if x < 0x66 then (if x < 0x65 then 0x00000043 else 0x0000004d) else if x < 0x67 then 0x00000033 else 0x00000085)
      else if x < 0x6c then (if x < 0x6a then (if x < 0x69 then 0x00000045 else 0x000000f9) else if x < 0x6b then 0x00000002 else 0x0000007f)
      else if x < 0x6e then (if x < 0x6d then 0x00000050 else 0x0000003c) else if x < 0x6f then 0x0000009f else 0x000000a8
    ) else if x < 0x80 then (
      if x < 0x78 then (if x < 0x74 then (if x < 0x72 then (if x < 0x71 then 0x00000051 else 0x000000a3) else if x < 0x73 then 0x00000040 else 0x0000008f)
      else if x < 0x76 then (if x < 0x75 then 0x00000092 else 0x0000009d) else if x < 0x77 then 0x00000038 else 0x000000f5)
      else if x < 0x7c then (if x < 0x7a then (if x < 0x79 then 0x000000bc else 0x000000b6) else if x < 0x7b then 0x000000da else 0x00000021)
      else if x < 0x7e then (if x < 0x7d then 0x00000010 else 0x000000ff) else if x < 0x7f then 0x000000f3 else 0x000000d2
    ) else if x < 0x90 then (
      if x < 0x88 then (if x < 0x84 then (if x < 0x82 then (if x < 0x81 then 0x000000cd else 0x0000000c) else if x < 0x83 then 0x00000013 else 0x000000ec)
      else if x < 0x86 then (if x < 0x85 then 0x0000005f else 0x00000097) else if x < 0x87 then 0x00000044 else 0x00000017)
      else if x < 0x8c then (if x < 0x8a then (if x < 0x89 then 0x000000c4 else 0x000000a7) else if x < 0x8b then 0x0000007e else 0x0000003d)
      else if x < 0x8e then (if x < 0x8d then 0x00000064 else 0x0000005d) else if x < 0x8f then 0x00000019 else 0x00000073
    ) else if x < 0xa0 then (
      if x < 0x98 then (if x < 0x94 then (if x < 0x92 then (if x < 0x91 then 0x00000060 else 0x00000081) else if x < 0x93 then 0x0000004f else 0x000000dc)
      else if x < 0x96 then (if x < 0x95 then 0x00000022 else 0x0000002a) else if x < 0x97 then 0x00000090 else 0x00000088)
      else if x < 0x9c then (if x < 0x9a then (if x < 0x99 then 0x00000046 else 0x000000ee) else if x < 0x9b then 0x000000b8 else 0x00000014)
      else if x < 0x9e then (if x < 0x9d then 0x000000de else 0x0000005e) else if x < 0x9f then 0x0000000b else 0x000000db
    ) else if x < 0xb0 then (
      if x < 0xa8 then (if x < 0xa4 then (if x < 0xa2 then (if x < 0xa1 then 0x000000e0 else 0x00000032) else if x < 0xa3 then 0x0000003a else 0x0000000a)
      else if x < 0xa6 then (if x < 0xa5 then 0x00000049 else 0x00000006) else if x < 0xa7 then 0x00000024 else 0x0000005c)
      else if x < 0xac then (if x < 0xaa then (if x < 0xa9 then 0x000000c2 else 0x000000d3) else if x < 0xab then 0x000000ac else 0x00000062)
      else if x < 0xae then (if x < 0xad then 0x00000091 else 0x00000095) else if x < 0xaf then 0x000000e4 else 0x00000079
    ) else if x < 0xc0 then (
      if x < 0xb8 then (if x < 0xb4 then (if x < 0xb2 then (if x < 0xb1 then 0x000000e7 else 0x000000c8) else if x < 0xb3 then 0x00000037 else 0x0000006d)
      else if x < 0xb6 then (if x < 0xb5 then 0x0000008d else 0x000000d5) else if x < 0xb7 then 0x0000004e else 0x000000a9)
      else if x < 0xbc then (if x < 0xba then (if x < 0xb9 then 0x0000006c else 0x00000056) else if x < 0xbb then 0x000000f4 else 0x000000ea)
      else if x < 0xbe then (if x < 0xbd then 0x00000065 else 0x0000007a) else if x < 0xbf then 0x000000ae else 0x00000008
    ) else if x < 0xd0 then (
      if x < 0xc8 then (if x < 0xc4 then (if x < 0xc2 then (if x < 0xc1 then 0x000000ba else 0x00000078) else if x < 0xc3 then 0x00000025 else 0x0000002e)
      else if x < 0xc6 then (if x < 0xc5 then 0x0000001c else 0x000000a6) else if x < 0xc7 then 0x000000b4 else 0x000000c6)
      else if x < 0xcc then (if x < 0xca then (if x < 0xc9 then 0x000000e8 else 0x000000dd) else if x < 0xcb then 0x00000074 else 0x0000001f)
      else if x < 0xce then (if x < 0xcd then 0x0000004b else 0x000000bd) else if x < 0xcf then 0x0000008b else 0x0000008a
    ) else if x < 0xe0 then (
      if x < 0xd8 then (if x < 0xd4 then (if x < 0xd2 then (if x < 0xd1 then 0x00000070 else 0x0000003e) else if x < 0xd3 then 0x000000b5 else 0x00000066)
      else if x < 0xd6 then (if x < 0xd5 then 0x00000048 else 0x00000003) else if x < 0xd7 then 0x000000f6 else 0x0000000e)
      else if x < 0xdc then (if x < 0xda then (if x < 0xd9 then 0x00000061 else 0x00000035) else if x < 0xdb then 0x00000057 else 0x000000b9)
      else if x < 0xde then (if x < 0xdd then 0x00000086 else 0x000000c1) else if x < 0xdf then 0x0000001d else 0x0000009e
    ) else if x < 0xf0 then (
      if x < 0xe8 then (if x < 0xe4 then (if x < 0xe2 then (if x < 0xe1 then 0x000000e1 else 0x000000f8) else if x < 0xe3 then 0x00000098 else 0x00000011)
      else if x < 0xe6 then (if x < 0xe5 then 0x00000069 else 0x000000d9) else if x < 0xe7 then 0x0000008e else 0x00000094)
      else if x < 0xec then (if x < 0xea then (if x < 0xe9 then 0x0000009b else 0x0000001e) else if x < 0xeb then 0x00000087 else 0x000000e9)
      else if x < 0xee then (if x < 0xed then 0x000000ce else 0x00000055) else if x < 0xef then 0x00000028 else 0x000000df
    ) else (
      if x < 0xf8 then (if x < 0xf4 then (if x < 0xf2 then (if x < 0xf1 then 0x0000008c else 0x000000a1) else if x < 0xf3 then 0x00000089 else 0x0000000d)
      else if x < 0xf6 then (if x < 0xf5 then 0x000000bf else 0x000000e6) else if x < 0xf7 then 0x00000042 else 0x00000068)
      else if x < 0xfc then (if x < 0xfa then (if x < 0xf9 then 0x00000041 else 0x00000099) else if x < 0xfb then 0x0000002d else 0x0000000f)
      else if x < 0xfe then (if x < 0xfd then 0x000000b0 else 0x00000054) else if x < 0xff then 0x000000bb else 0x00000016
    )
  }

  function Fl1(x: bv8): bv32 {
    if x < 0x10 then (
      if x < 0x08 then (if x < 0x04 then (if x < 0x02 then (if x < 0x01 then 0x00006300 else 0x00007c00) else if x < 0x03 then 0x00007700 else 0x00007b00)
      else if x < 0x06 then (if x < 0x05 then 0x0000f200 else 0x00006b00) else if x < 0x07 then 0x00006f00 else 0x0000c500)
      else if x < 0x0c then (if x < 0x0a then (if x < 0x09 then 0x00003000 else 0x00000100) else if x < 0x0b then 0x00006700 else 0x00002b00)
      else if x < 0x0e then (if x < 0x0d then 0x0000fe00 else 0x0000d700) else if x < 0x0f then 0x0000ab00 else 0x00007600
    ) else if x < 0x20 then (
      if x < 0x18 then (if x < 0x14 then (if x < 0x12 then (if x < 0x11 then 0x0000ca00 else 0x00008200) else if x < 0x13 then 0x0000c900 else 0x00007d00)
      else if x < 0x16 then (if x < 0x15 then 0x0000fa00 else 0x00005900) else if x < 0x17 then 0x00004700 else 0x0000f000)
      else if x < 0x1c then (if x < 0x1a then (if x < 0x19 then 0x0000ad00 else 0x0000d400) else if x < 0x1b then 0x0000a200 else 0x0000af00)
      else if x < 0x1e then (if x < 0x1d then 0x00009c00 else 0x0000a400) else if x < 0x1f then 0x00007200 else 0x0000c000
    ) else if x < 0x30 then (
      if x < 0x28 then (if x < 0x24 then (if x < 0x22 then (if x < 0x21 then 0x0000b700 else 0x0000fd00) else if x < 0x23 then 0x00009300 else 0x00002600)
      else if x < 0x26 then (if x < 0x25 then 0x00003600 else 0x00003f00) else if x < 0x27 then 0x0000f700 else 0x0000cc00)
      else if x < 0x2c then (if x < 0x2a then (if x < 0x29 then 0x00003400 else 0x0000a500) else if x < 0x2b then 0x0000e500 else 0x0000f100)
      else if x < 0x2e then (if x < 0x2d then 0x00007100 else 0x0000d800) else if x < 0x2f then 0x00003100 else 0x00001500
    ) else if x < 0x40 then (
      if x < 0x38 then (if x < 0x34 then (if x < 0x32 then (if x < 0x31 then 0x00000400 else 0x0000c700) else if x < 0x33 then 0x00002300 else 0x0000c300)
      else if x < 0x36 then (if x < 0x35 then 0x00001800 else 0x00009600) else if x < 0x37 then 0x00000500 else 0x00009a00)
      else if x < 0x3c then (if x < 0x3a then (if x < 0x39 then 0x00000700 else 0x00001200) else if x < 0x3b then 0x00008000 else 0x0000e200)
      else if x < 0x3e then (if x < 0x3d then 0x0000eb00 else 0x00002700) else if x < 0x3f then 0x0000b200 else 0x00007500
    ) else if x < 0x50 then (
      if x < 0x48 then (if x < 0x44 then (if x < 0x42 then (if x < 0x41 then 0x00000900 else 0x00008300) else if x < 0x43 then 0x00002c00 else 0x00001a00)
      else if x < 0x46 then (if x < 0x45 then 0x00001b00 else 0x00006e00) else if x < 0x47 then 0x00005a00 else 0x0000a000)
      else if x < 0x4c then (if x < 0x4a then (if x < 0x49 then 0x00005200 else 0x00003b00) else if x < 0x4b then 0x0000d600 else 0x0000b300)
      else if x < 0x4e then (if x < 0x4d then 0x00002900 else 0x0000e300) else if x < 0x4f then 0x00002f00 else 0x00008400
    ) else if x < 0x60 then (
      if x < 0x58 then (if x < 0x54 then (if x < 0x52 then (if x < 0x51 then 0x00005300 else 0x0000d100) else if x < 0x53 then 0x00000000 else 0x0000ed00)
      else if x < 0x56 then (if x < 0x55 then 0x00002000 else 0x0000fc00) else if x < 0x57 then 0x0000b100 else 0x00005b00)
      else if x < 0x5c then (if x < 0x5a then (if x < 0x59 then 0x00006a00 else 0x0000cb00) else if x < 0x5b then 0x0000be00 else 0x00003900)
      else if x < 0x5e then (if x < 0x5d then 0x00004a00 else 0x00004c00) else if x < 0x5f then 0x00005800 else 0x0000cf00
    ) else if x < 0x70 then (
      if x < 0x68 then (if x < 0x64 then (if x < 0x62 then (if x < 0x61 then 0x0000d000 else 0x0000ef00) else if x < 0x63 then 0x0000aa00 else 0x0000fb00)
      else if x < 0x66 then (if x < 0x65 then 0x00004300 else 0x00004d00) else if x < 0x67 then 0x00003300 else 0x00008500)
      else if x < 0x6c then (if x < 0x6a then (if x < 0x69 then 0x00004500 else 0x0000f900) else if x < 0x6b then 0x00000200 else 0x00007f00)
      else if x < 0x6e then (if x < 0x6d then 0x00005000 else 0x00003c00) else if x < 0x6f then 0x00009f00 else 0x0000a800
    ) else if x < 0x80 then (
      if x < 0x78 then (if x < 0x74 then (if x < 0x72 then (if x < 0x71 then 0x00005100 else 0x0000a300) else if x < 0x73 then 0x00004000 else 0x00008f00)
      else if x < 0x76 then (if x < 0x75 then 0x00009200 else 0x00009d00) else if x < 0x77 then 0x00003800 else 0x0000f500)
      else if x < 0x7c then (if x < 0x7a then (if x < 0x79 then 0x0000bc00 else 0x0000b600) else if x < 0x7b then 0x0000da00 else 0x00002100)
      else if x < 0x7e then (if x < 0x7d then 0x00001000 else 0x0000ff00) else if x < 0x7f then 0x0000f300 else 0x0000d200
    ) else if x < 0x90 then (
      if x < 0x88 then (if x < 0x84 then (if x < 0x82 then (if x < 0x81 then 0x0000cd00 else 0x00000c00) else if x < 0x83 then 0x00001300 else 0x0000ec00)
      else if x < 0x86 then (if x < 0x85 then 0x00005f00 else 0x00009700) else if x < 0x87 then 0x00004400 else 0x00001700)
      else if x < 0x8c then (if x < 0x8a then (if x < 0x89 then 0x0000c400 else 0x0000a700) else if x < 0x8b then 0x00007e00 else 0x00003d00)
      else if x < 0x8e then (if x < 0x8d then 0x00006400 else 0x00005d00) else if x < 0x8f then 0x00001900 else 0x00007300
    ) else if x < 0xa0 then (
      if x < 0x98 then (if x < 0x94 then (if x < 0x92 then (if x < 0x91 then 0x00006000 else 0x00008100) else if x < 0x93 then 0x00004f00 else 0x0000dc00)
      else if x < 0x96 then (if x < 0x95 then 0x00002200 else 0x00002a00) else if x < 0x97 then 0x00009000 else 0x00008800)
      else if x < 0x9c then (if x < 0x9a then (if x < 0x99 then 0x00004600 else 0x0000ee00) else if x < 0x9b then 0x0000b800 else 0x00001400)
      else if x < 0x9e then (if x < 0x9d then 0x0000de00 else 0x00005e00) else if x < 0x9f then 0x00000b00 else 0x0000db00
    ) else if x < 0xb0 then (
      if x < 0xa8 then (if x < 0xa4 then (if x < 0xa2 then (if x < 0xa1 then 0x0000e000 else 0x00003200) else if x < 0xa3 then 0x00003a00 else 0x00000a00)
      else if x < 0xa6 then (if x < 0xa5 then 0x00004900 else 0x00000600) else if x < 0xa7 then 0x00002400 else 0x00005c00)
      else if x < 0xac then (if x < 0xaa then (if x < 0xa9 then 0x0000c200 else 0x0000d300) else if x < 0xab then 0x0000ac00 else 0x00006200)
      else if x < 0xae then (if x < 0xad then 0x00009100 else 0x00009500) else if x < 0xaf then 0x0000e400 else 0x00007900
    ) else if x < 0xc0 then (
      if x < 0xb8 then (if x < 0xb4 then (if x < 0xb2 then (if x < 0xb1 then 0x0000e700 else 0x0000c800) else if x < 0xb3 then 0x00003700 else 0x00006d00)
      else if x < 0xb6 then (if x < 0xb5 then 0x00008d00 else 0x0000d500) else if x < 0xb7 then 0x00004e00 else 0x0000a900)
      else if x < 0xbc then (if x < 0xba then (if x < 0xb9 then 0x00006c00 else 0x00005600) else if x < 0xbb then 0x0000f400 else 0x0000ea00)
      else if x < 0xbe then (if x < 0xbd then 0x00006500 else 0x00007a00) else if x < 0xbf then 0x0000ae00 else 0x00000800
    ) else if x < 0xd0 then (
      if x < 0xc8 then (if x < 0xc4 then (if x < 0xc2 then (if x < 0xc1 then 0x0000ba00 else 0x00007800) else if x < 0xc3 then 0x00002500 else 0x00002e00)
      else if x < 0xc6 then (if x < 0xc5 then 0x00001c00 else 0x0000a600) else if x < 0xc7 then 0x0000b400 else 0x0000c600)
      else if x < 0xcc then (if x < 0xca then (if x < 0xc9 then 0x0000e800 else 0x0000dd00) else if x < 0xcb then 0x00007400 else 0x00001f00)
      else if x < 0xce then (if x < 0xcd then 0x00004b00 else 0x0000bd00) else if x < 0xcf then 0x00008b00 else 0x00008a00
    ) else if x < 0xe0 then (
      if x < 0xd8 then (if x < 0xd4 then (if x < 0xd2 then (if x < 0xd1 then 0x00007000 else 0x00003e00) else if x < 0xd3 then 0x0000b500 else 0x00006600)
      else if x < 0xd6 then (if x < 0xd5 then 0x00004800 else 0x00000300) else if x < 0xd7 then 0x0000f600 else 0x00000e00)
      else if x < 0xdc then (if x < 0xda then (if x < 0xd9 then 0x00006100 else 0x00003500) else if x < 0xdb then 0x00005700 else 0x0000b900)
      else if x < 0xde then (if x < 0xdd then 0x00008600 else 0x0000c100) else if x < 0xdf then 0x00001d00 else 0x00009e00
    ) else if x < 0xf0 then (
      if x < 0xe8 then (if x < 0xe4 then (if x < 0xe2 then (if x < 0xe1 then 0x0000e100 else 0x0000f800) else if x < 0xe3 then 0x00009800 else 0x00001100)
      else if x < 0xe6 then (if x < 0xe5 then 0x00006900 else 0x0000d900) else if x < 0xe7 then 0x00008e00 else 0x00009400)
      else if x < 0xec then (if x < 0xea then (if x < 0xe9 then 0x00009b00 else 0x00001e00) else if x < 0xeb then 0x00008700 else 0x0000e900)
      else if x < 0xee then (if x < 0xed then 0x0000ce00 else 0x00005500) else if x < 0xef then 0x00002800 else 0x0000df00
    ) else (
      if x < 0xf8 then (if x < 0xf4 then (if x < 0xf2 then (if x < 0xf1 then 0x00008c00 else 0x0000a100) else if x < 0xf3 then 0x00008900 else 0x00000d00)
      else if x < 0xf6 then (if x < 0xf5 then 0x0000bf00 else 0x0000e600) else if x < 0xf7 then 0x00004200 else 0x00006800)
      else if x < 0xfc then (if x < 0xfa then (if x < 0xf9 then 0x00004100 else 0x00009900) else if x < 0xfb then 0x00002d00 else 0x00000f00)
      else if x < 0xfe then (if x < 0xfd then 0x0000b000 else 0x00005400) else if x < 0xff then 0x0000bb00 else 0x00001600
    )
  }

  function Fl2(x: bv8): bv32 {
    if x < 0x10 then (
      if x < 0x08 then (if x < 0x04 then (if x < 0x02 then (if x < 0x01 then 0x00630000 else 0x007c0000) else if x < 0x03 then 0x00770000 else 0x007b0000)
      else if x < 0x06 then (if x < 0x05 then 0x00f20000 else 0x006b0000) else if x < 0x07 then 0x006f0000 else 0x00c50000)
      else if x < 0x0c then (if x < 0x0a then (if x < 0x09 then 0x00300000 else 0x00010000) else if x < 0x0b then 0x00670000 else 0x002b0000)
      else if x < 0x0e then (if x < 0x0d then 0x00fe0000 else 0x00d70000) else if x < 0x0f then 0x00ab0000 else 0x00760000
    ) else if x < 0x20 then (
      if x < 0x18 then (if x < 0x14 then (if x < 0x12 then (if x < 0x11 then 0x00ca0000 else 0x00820000) else if x < 0x13 then 0x00c90000 else 0x007d0000)
      else if x < 0x16 then (if x < 0x15 then 0x00fa0000 else 0x00590000) else if x < 0x17 then 0x00470000 else 0x00f00000)
      else if x < 0x1c then (if x < 0x1a then (if x < 0x19 then 0x00ad0000 else 0x00d40000) else if x < 0x1b then 0x00a20000 else 0x00af0000)
      else if x < 0x1e then (if x < 0x1d then 0x009c0000 else 0x00a40000) else if x < 0x1f then 0x00720000 else 0x00c00000
    ) else if x < 0x30 then (
      if x < 0x28 then (if x < 0x24 then (if x < 0x22 then (if x < 0x21 then 0x00b70000 else 0x00fd0000) else if x < 0x23 then 0x00930000 else 0x00260000)
      else if x < 0x26 then (if x < 0x25 then 0x00360000 else 0x003f0000) else if x < 0x27 then 0x00f70000 else 0x00cc0000)
      else if x < 0x2c then (if x < 0x2a then (if x < 0x29 then 0x00340000 else 0x00a50000) else if x < 0x2b then 0x00e50000 else 0x00f10000)
      else if x < 0x2e then (if x < 0x2d then 0x00710000 else 0x00d80000) else if x < 0x2f then 0x00310000 else 0x00150000
    ) else if x < 0x40 then (
      if x < 0x38 then (if x < 0x34 then (if x < 0x32 then (if x < 0x31 then 0x00040000 else 0x00c70000) else if x < 0x33 then 0x00230000 else 0x00c30000)
      else if x < 0x36 then (if x < 0x35 then 0x00180000 else 0x00960000) else if x < 0x37 then 0x00050000 else 0x009a0000)
      else if x < 0x3c then (if x < 0x3a then (if x < 0x39 then 0x00070000 else 0x00120000) else if x < 0x3b then 0x00800000 else 0x00e20000)
      else if x < 0x3e then (if x < 0x3d then 0x00eb0000 else 0x00270000) else if x < 0x3f then 0x00b20000 else 0x00750000
    ) else if x < 0x50 then (
      if x < 0x48 then (if x < 0x44 then (if x < 0x42 then (if x < 0x41 then 0x00090000 else 0x00830000) else if x < 0x43 then 0x002c0000 else 0x001a0000)
      else if x < 0x46 then (if x < 0x45 then 0x001b0000 else 0x006e0000) else if x < 0x47 then 0x005a0000 else 0x00a00000)
      else if x < 0x4c then (if x < 0x4a then (if x < 0x49 then 0x00520000 else 0x003b0000) else if x < 0x4b then 0x00d60000 else 0x00b30000)
      else if x < 0x4e then (if x < 0x4d then 0x00290000 else 0x00e30000) else if x < 0x4f then 0x002f0000 else 0x00840000
    ) else if x < 0x60 then (
      if x < 0x58 then (if x < 0x54 then (if x < 0x52 then (if x < 0x51 then 0x00530000 else 0x00d10000) else if x < 0x53 then 0x00000000 else 0x00ed0000)
      else if x < 0x56 then (if x < 0x55 then 0x00200000 else 0x00fc0000) else if x < 0x57 then 0x00b10000 else 0x005b0000)
      else if x < 0x5c then (if x < 0x5a then (if x < 0x59 then 0x006a0000 else 0x00cb0000) else if x < 0x5b then 0x00be0000 else 0x00390000)
      else if x < 0x5e then (if x < 0x5d then 0x004a0000 else 0x004c0000) else if x < 0x5f then 0x00580000 else 0x00cf0000
    ) else if x < 0x70 then (
      if x < 0x68 then (if x < 0x64 then (if x < 0x62 then (if x < 0x61 then 0x00d00000 else 0x00ef0000) else if x < 0x63 then 0x00aa0000 else 0x00fb0000)
      else if x < 0x66 then (if x < 0x65 then 0x00430000 else 0x004d0000) else if x < 0x67 then 0x00330000 else 0x00850000)
      else if x < 0x6c then (if x < 0x6a then (if x < 0x69 then 0x00450000 else 0x00f90000) else if x < 0x6b then 0x00020000 else 0x007f0000)
      else if x < 0x6e then (if x < 0x6d then 0x00500000 else 0x003c0000) else if x < 0x6f then 0x009f0000 else 0x00a80000
    ) else if x < 0x80 then (
      if x < 0x78 then (if x < 0x74 then (if x < 0x72 then (if x < 0x71 then 0x00510000 else 0x00a30000) else if x < 0x73 then 0x00400000 else 0x008f0000)
      else if x < 0x76 then (if x < 0x75 then 0x00920000 else 0x009d0000) else if x < 0x77 then 0x00380000 else 0x00f50000)
      else if x < 0x7c then (if x < 0x7a then (if x < 0x79 then 0x00bc0000 else 0x00b60000) else if x < 0x7b then 0x00da0000 else 0x00210000)
      else if x < 0x7e then (if x < 0x7d then 0x00100000 else 0x00ff0000) else if x < 0x7f then 0x00f30000 else 0x00d20000
    ) else if x < 0x90 then (
      if x < 0x88 then (if x < 0x84 then (if x < 0x82 then (if x < 0x81 then 0x00cd0000 else 0x000c0000) else if x < 0x83 then 0x00130000 else 0x00ec0000)
      else if x < 0x86 then (if x < 0x85 then 0x005f0000 else 0x00970000) else if x < 0x87 then 0x00440000 else 0x00170000)
      else if x < 0x8c then (if x < 0x8a then (if x < 0x89 then 0x00c40000 else 0x00a70000) else if x < 0x8b then 0x007e0000 else 0x003d0000)
      else if x < 0x8e then (if x < 0x8d then 0x00640000 else 0x005d0000) else if x < 0x8f then 0x00190000 else 0x00730000
    ) else if x < 0xa0 then (
      if x < 0x98 then (if x < 0x94 then (if x < 0x92 then (if x < 0x91 then 0x00600000 else 0x00810000) else if x < 0x93 then 0x004f0000 else 0x00dc0000)
      else if x < 0x96 then (if x < 0x95 then 0x00220000 else 0x002a0000) else if x < 0x97 then 0x00900000 else 0x00880000)
      else if x < 0x9c then (if x < 0x9a then (if x < 0x99 then 0x00460000 else 0x00ee0000) else if x < 0x9b then 0x00b80000 else 0x00140000)
      else if x < 0x9e then (if x < 0x9d then 0x00de0000 else 0x005e0000) else if x < 0x9f then 0x000b0000 else 0x00db0000
    ) else if x < 0xb0 then (
      if x < 0xa8 then (if x < 0xa4 then (if x < 0xa2 then (if x < 0xa1 then 0x00e00000 else 0x00320000) else if x < 0xa3 then 0x003a0000 else 0x000a0000)
      else if x < 0xa6 then (if x < 0xa5 then 0x00490000 else 0x00060000) else if x < 0xa7 then 0x00240000 else 0x005c0000)
      else if x < 0xac then (if x < 0xaa then (if x < 0xa9 then 0x00c20000 else 0x00d30000) else if x < 0xab then 0x00ac0000 else 0x00620000)
      else if x < 0xae then (if x < 0xad then 0x00910000 else 0x00950000) else if x < 0xaf then 0x00e40000 else 0x00790000
    ) else if x < 0xc0 then (
      if x < 0xb8 then (if x < 0xb4 then (if x < 0xb2 then (if x < 0xb1 then 0x00e70000 else 0x00c80000) else if x < 0xb3 then 0x00370000 else 0x006d0000)
      else if x < 0xb6 then (if x < 0xb5 then 0x008d0000 else 0x00d50000) else if x < 0xb7 then 0x004e0000 else 0x00a90000)
      else if x < 0xbc then (if x < 0xba then (if x < 0xb9 then 0x006c0000 else 0x00560000) else if x < 0xbb then 0x00f40000 else 0x00ea0000)
      else if x < 0xbe then (if x < 0xbd then 0x00650000 else 0x007a0000) else if x < 0xbf then 0x00ae0000 else 0x00080000
    ) else if x < 0xd0 then (
      if x < 0xc8 then (if x < 0xc4 then (if x < 0xc2 then (if x < 0xc1 then 0x00ba0000 else 0x00780000) else if x < 0xc3 then 0x00250000 else 0x002e0000)
      else if x < 0xc6 then (if x < 0xc5 then 0x001c0000 else 0x00a60000) else if x < 0xc7 then 0x00b40000 else 0x00c60000)
      else if x < 0xcc then (if x < 0xca then (if x < 0xc9 then 0x00e80000 else 0x00dd0000) else if x < 0xcb then 0x00740000 else 0x001f0000)
      else if x < 0xce then (if x < 0xcd then 0x004b0000 else 0x00bd0000) else if x < 0xcf then 0x008b0000 else 0x008a0000
    ) else if x < 0xe0 then (
      if x < 0xd8 then (if x < 0xd4 then (if x < 0xd2 then (if x < 0xd1 then 0x00700000 else 0x003e0000) else if x < 0xd3 then 0x00b50000 else 0x00660000)
      else if x < 0xd6 then (if x < 0xd5 then 0x00480000 else 0x00030000) else if x < 0xd7 then 0x00f60000 else 0x000e0000)
      else if x < 0xdc then (if x < 0xda then (if x < 0xd9 then 0x00610000 else 0x00350000) else if x < 0xdb then 0x00570000 else 0x00b90000)
      else if x < 0xde then (if x < 0xdd then 0x00860000 else 0x00c10000) else if x < 0xdf then 0x001d0000 else 0x009e0000
    ) else if x < 0xf0 then (
      if x < 0xe8 then (if x < 0xe4 then (if x < 0xe2 then (if x < 0xe1 then 0x00e10000 else 0x00f80000) else if x < 0xe3 then 0x00980000 else 0x00110000)
      else if x < 0xe6 then (if x < 0xe5 then 0x00690000 else 0x00d90000) else if x < 0xe7 then 0x008e0000 else 0x00940000)
      else if x < 0xec then (if x < 0xea then (if x < 0xe9 then 0x009b0000 else 0x001e0000) else if x < 0xeb then 0x00870000 else 0x00e90000)
      else if x < 0xee then (if x < 0xed then 0x00ce0000 else 0x00550000) else if x < 0xef then 0x00280000 else 0x00df0000
    ) else (
      if x < 0xf8 then (if x < 0xf4 then (if x < 0xf2 then (if x < 0xf1 then 0x008c0000 else 0x00a10000) else if x < 0xf3 then 0x00890000 else 0x000d0000)
      else if x < 0xf6 then (if x < 0xf5 then 0x00bf0000 else 0x00e60000) else if x < 0xf7 then 0x00420000 else 0x00680000)
      else if x < 0xfc then (if x < 0xfa then (if x < 0xf9 then 0x00410000 else 0x00990000) else if x < 0xfb then 0x002d0000 else 0x000f0000)
      else if x < 0xfe then (if x < 0xfd then 0x00b00000 else 0x00540000) else if x < 0xff then 0x00bb0000 else 0x00160000
    )
  }

  function Fl3(x: bv8): bv32 {
    if x < 0x10 then (
      if x < 0x08 then (if x < 0x04 then (if x < 0x02 then (if x < 0x01 then 0x63000000 else 0x7c000000) else if x < 0x03 then 0x77000000 else 0x7b000000)
      else if x < 0x06 then (if x < 0x05 then 0xf2000000 else 0x6b000000) else if x < 0x07 then 0x6f000000 else 0xc5000000)
      else if x < 0x0c then (if x < 0x0a then (if x < 0x09 then 0x30000000 else 0x01000000) else if x < 0x0b then 0x67000000 else 0x2b000000)
      else if x < 0x0e then (if x < 0x0d then 0xfe000000 else 0xd7000000) else if x < 0x0f then 0xab000000 else 0x76000000
    ) else if x < 0x20 then (
      if x < 0x18 then (if x < 0x14 then (if x < 0x12 then (if x < 0x11 then 0xca000000 else 0x82000000) else if x < 0x13 then 0xc9000000 else 0x7d000000)
      else if x < 0x16 then (if x < 0x15 then 0xfa000000 else 0x59000000) else if x < 0x17 then 0x47000000 else 0xf0000000)
      else if x < 0x1c then (if x < 0x1a then (if x < 0x19 then 0xad000000 else 0xd4000000) else if x < 0x1b then 0xa2000000 else 0xaf000000)
      else if x < 0x1e then (if x < 0x1d then 0x9c000000 else 0xa4000000) else if x < 0x1f then 0x72000000 else 0xc0000000
    ) else if x < 0x30 then (
      if x < 0x28 then (if x < 0x24 then (if x < 0x22 then (if x < 0x21 then 0xb7000000 else 0xfd000000) else if x < 0x23 then 0x93000000 else 0x26000000)
      else if x < 0x26 then (if x < 0x25 then 0x36000000 else 0x3f000000) else if x < 0x27 then 0xf7000000 else 0xcc000000)
      else if x < 0x2c then (if x < 0x2a then (if x < 0x29 then 0x34000000 else 0xa5000000) else if x < 0x2b then 0xe5000000 else 0xf1000000)
      else if x < 0x2e then (if x < 0x2d then 0x71000000 else 0xd8000000) else if x < 0x2f then 0x31000000 else 0x15000000
    ) else if x < 0x40 then (
      if x < 0x38 then (if x < 0x34 then (if x < 0x32 then (if x < 0x31 then 0x04000000 else 0xc7000000) else if x < 0x33 then 0x23000000 else 0xc3000000)
      else if x < 0x36 then (if x < 0x35 then 0x18000000 else 0x96000000) else if x < 0x37 then 0x05000000 else 0x9a000000)
      else if x < 0x3c then (if x < 0x3a then (if x < 0x39 then 0x07000000 else 0x12000000) else if x < 0x3b then 0x80000000 else 0xe2000000)
      else if x < 0x3e then (if x < 0x3d then 0xeb000000 else 0x27000000) else if x < 0x3f then 0xb2000000 else 0x75000000
    ) else if x < 0x50 then (
      if x < 0x48 then (if x < 0x44 then (if x < 0x42 then (if x < 0x41 then 0x09000000 else 0x83000000) else if x < 0x43 then 0x2c000000 else 0x1a000000)
      else if x < 0x46 then (if x < 0x45 then 0x1b000000 else 0x6e000000) else if x < 0x47 then 0x5a000000 else 0xa0000000)
      else if x < 0x4c then (if x < 0x4a then (if x < 0x49 then 0x52000000 else 0x3b000000) else if x < 0x4b then 0xd6000000 else 0xb3000000)
      else if x < 0x4e then (if x < 0x4d then 0x29000000 else 0xe3000000) else if x < 0x4f then 0x2f000000 else 0x84000000
    ) else if x < 0x60 then (
      if x < 0x58 then (if x < 0x54 then (if x < 0x52 then (if x < 0x51 then 0x53000000 else 0xd1000000) else if x < 0x53 then 0x00000000 else 0xed000000)
      else if x < 0x56 then (if x < 0x55 then 0x20000000 else 0xfc000000) else if x < 0x57 then 0xb1000000 else 0x5b000000)
      else if x < 0x5c then (if x < 0x5a then (if x < 0x59 then 0x6a000000 else 0xcb000000) else if x < 0x5b then 0xbe000000 else 0x39000000)
      else if x < 0x5e then (if x < 0x5d then 0x4a000000 else 0x4c000000) else if x < 0x5f then 0x58000000 else 0xcf000000
    ) else if x < 0x70 then (
      if x < 0x68 then (if x < 0x64 then (if x < 0x62 then (if x < 0x61 then 0xd0000000 else 0xef000000) else if x < 0x63 then 0xaa000000 else 0xfb000000)
      else if x < 0x66 then (if x < 0x65 then 0x43000000 else 0x4d000000) else if x < 0x67 then 0x33000000 else 0x85000000)
      else if x < 0x6c then (if x < 0x6a then (if x < 0x69 then 0x45000000 else 0xf9000000) else if x < 0x6b then 0x02000000 else 0x7f000000)
      else if x < 0x6e then (if x < 0x6d then 0x50000000 else 0x3c000000) else if x < 0x6f then 0x9f000000 else 0xa8000000
    ) else if x < 0x80 then (
      if x < 0x78 then (if x < 0x74 then (if x < 0x72 then (if x < 0x71 then 0x51000000 else 0xa3000000) else if x < 0x73 then 0x40000000 else 0x8f000000)
      else if x < 0x76 then (if x < 0x75 then 0x92000000 else 0x9d000000) else if x < 0x77 then 0x38000000 else 0xf5000000)
      else if x < 0x7c then (if x < 0x7a then (if x < 0x79 then 0xbc000000 else 0xb6000000) else if x < 0x7b then 0xda000000 else 0x21000000)
      else if x < 0x7e then (if x < 0x7d then 0x10000000 else 0xff000000) else if x < 0x7f then 0xf3000000 else 0xd2000000
    ) else if x < 0x90 then (
      if x < 0x88 then (if x < 0x84 then (if x < 0x82 then (if x < 0x81 then 0xcd000000 else 0x0c000000) else if x < 0x83 then 0x13000000 else 0xec000000)
      else if x < 0x86 then (if x < 0x85 then 0x5f000000 else 0x97000000) else if x < 0x87 then 0x44000000 else 0x17000000)
      else if x < 0x8c then (if x < 0x8a then (if x < 0x89 then 0xc4000000 else 0xa7000000) else if x < 0x8b then 0x7e000000 else 0x3d000000)
      else if x < 0x8e then (if x < 0x8d then 0x64000000 else 0x5d000000) else if x < 0x8f then 0x19000000 else 0x73000000
    ) else if x < 0xa0 then (
      if x < 0x98 then (if x < 0x94 then (if x < 0x92 then (if x < 0x91 then 0x60000000 else 0x81000000) else if x < 0x93 then 0x4f000000 else 0xdc000000)
      else if x < 0x96 then (if x < 0x95 then 0x22000000 else 0x2a000000) else if x < 0x97 then 0x90000000 else 0x88000000)
      else if x < 0x9c then (if x < 0x9a then (if x < 0x99 then 0x46000000 else 0xee000000) else if x < 0x9b then 0xb8000000 else 0x14000000)
      else if x < 0x9e then (if x < 0x9d then 0xde000000 else 0x5e000000) else if x < 0x9f then 0x0b000000 else 0xdb000000
    ) else if x < 0xb0 then (
      if x < 0xa8 then (if x < 0xa4 then (if x < 0xa2 then (if x < 0xa1 then 0xe0000000 else 0x32000000) else if x < 0xa3 then 0x3a000000 else 0x0a000000)
      else if x < 0xa6 then (if x < 0xa5 then 0x49000000 else 0x06000000) else if x < 0xa7 then 0x24000000 else 0x5c000000)
      else if x < 0xac then (if x < 0xaa then (if x < 0xa9 then 0xc2000000 else 0xd3000000) else if x < 0xab then 0xac000000 else 0x62000000)
      else if x < 0xae then (if x < 0xad then 0x91000000 else 0x95000000) else if x < 0xaf then 0xe4000000 else 0x79000000
    ) else if x < 0xc0 then (
      if x < 0xb8 then (if x < 0xb4 then (if x < 0xb2 then (if x < 0xb1 then 0xe7000000 else 0xc8000000) else if x < 0xb3 then 0x37000000 else 0x6d000000)
      else if x < 0xb6 then (if x < 0xb5 then 0x8d000000 else 0xd5000000) else if x < 0xb7 then 0x4e000000 else 0xa9000000)
      else if x < 0xbc then (if x < 0xba then (if x < 0xb9 then 0x6c000000 else 0x56000000) else if x < 0xbb then 0xf4000000 else 0xea000000)
      else if x < 0xbe then (if x < 0xbd then 0x65000000 else 0x7a000000) else if x < 0xbf then 0xae000000 else 0x08000000
    ) else if x < 0xd0 then (
      if x < 0xc8 then (if x < 0xc4 then (if x < 0xc2 then (if x < 0xc1 then 0xba000000 else 0x78000000) else if x < 0xc3 then 0x25000000 else 0x2e000000)
      else if x < 0xc6 then (if x < 0xc5 then 0x1c000000 else 0xa6000000) else if x < 0xc7 then 0xb4000000 else 0xc6000000)
      else if x < 0xcc then (if x < 0xca then (if x < 0xc9 then 0xe8000000 else 0xdd000000) else if x < 0xcb then 0x74000000 else 0x1f000000)
      else if x < 0xce then (if x < 0xcd then 0x4b000000 else 0xbd000000) else if x < 0xcf then 0x8b000000 else 0x8a000000
    ) else if x < 0xe0 then (
      if x < 0xd8 then (if x < 0xd4 then (if x < 0xd2 then (if x < 0xd1 then 0x70000000 else 0x3e000000) else if x < 0xd3 then 0xb5000000 else 0x66000000)
      else if x < 0xd6 then (if x < 0xd5 then 0x48000000 else 0x03000000) else if x < 0xd7 then 0xf6000000 else 0x0e000000)
      else if x < 0xdc then (if x < 0xda then (if x < 0xd9 then 0x61000000 else 0x35000000) else if x < 0xdb then 0x57000000 else 0xb9000000)
      else if x < 0xde then (if x < 0xdd then 0x86000000 else 0xc1000000) else if x < 0xdf then 0x1d000000 else 0x9e000000
    ) else if x < 0xf0 then (
      if x < 0xe8 then (if x < 0xe4 then (if x < 0xe2 then (if x < 0xe1 then 0xe1000000 else 0xf8000000) else if x < 0xe3 then 0x98000000 else 0x11000000)
      else if x < 0xe6 then (if x < 0xe5 then 0x69000000 else 0xd9000000) else if x < 0xe7 then 0x8e000000 else 0x94000000)
      else if x < 0xec then (if x < 0xea then (if x < 0xe9 then 0x9b000000 else 0x1e000000) else if x < 0xeb then 0x87000000 else 0xe9000000)
      else if x < 0xee then (if x < 0xed then 0xce000000 else 0x55000000) else if x < 0xef then 0x28000000 else 0xdf000000
    ) else (
      if x < 0xf8 then (if x < 0xf4 then (if x < 0xf2 then (if x < 0xf1 then 0x8c000000 else 0xa1000000) else if x < 0xf3 then 0x89000000 else 0x0d000000)
      else if x < 0xf6 then (if x < 0xf5 then 0xbf000000 else 0xe6000000) else if x < 0xf7 then 0x42000000 else 0x68000000)
      else if x < 0xfc then (if x < 0xfa then (if x < 0xf9 then 0x41000000 else 0x99000000) else if x < 0xfb then 0x2d000000 else 0x0f000000)
      else if x < 0xfe then (if x < 0xfd then 0xb0000000 else 0x54000000) else if x < 0xff then 0xbb000000 else 0x16000000
    )
  }

  function It0(x: bv8): bv32 {
    if x < 0x10 then (
      if x < 0x08 then (if x < 0x04 then (if x < 0x02 then (if x < 0x01 then 0x50a7f451 else 0x5365417e) else if x < 0x03 then 0xc3a4171a else 0x965e273a)
      else if x < 0x06 then (if x < 0x05 then 0xcb6bab3b else 0xf1459d1f) else if x < 0x07 then 0xab58faac else 0x9303e34b)
      else if x < 0x0c then (if x < 0x0a then (if x < 0x09 then 0x55fa3020 else 0xf66d76ad) else if x < 0x0b then 0x9176cc88 else 0x254c02f5)
      else if x < 0x0e then (if x < 0x0d then 0xfcd7e54f else 0xd7cb2ac5) else if x < 0x0f then 0x80443526 else 0x8fa362b5
    ) else if x < 0x20 then (
      if x < 0x18 then (if x < 0x14 then (if x < 0x12 then (if x < 0x11 then 0x495ab1de else 0x671bba25) else if x < 0x13 then 0x980eea45 else 0xe1c0fe5d)
      else if x < 0x16 then (if x < 0x15 then 0x02752fc3 else 0x12f04c81) else if x < 0x17 then 0xa397468d else 0xc6f9d36b)
      else if x < 0x1c then (if x < 0x1a then (if x < 0x19 then 0xe75f8f03 else 0x959c9215) else if x < 0x1b then 0xeb7a6dbf else 0xda595295)
      else if x < 0x1e then (if x < 0x1d then 0x2d83bed4 else 0xd3217458) else if x < 0x1f then 0x2969e049 else 0x44c8c98e
    ) else if x < 0x30 then (
      if x < 0x28 then (if x < 0x24 then (if x < 0x22 then (if x < 0x21 then 0x6a89c275 else 0x78798ef4) else if x < 0x23 then 0x6b3e5899 else 0xdd71b927)
      else if x < 0x26 then (if x < 0x25 then 0xb64fe1be else 0x17ad88f0) else if x < 0x27 then 0x66ac20c9 else 0xb43ace7d)
      else if x < 0x2c then (if x < 0x2a then (if x < 0x29 then 0x184adf63 else 0x82311ae5) else if x < 0x2b then 0x60335197 else 0x457f5362)
      else if x < 0x2e then (if x < 0x2d then 0xe07764b1 else 0x84ae6bbb) else if x < 0x2f then 0x1ca081fe else 0x942b08f9
    ) else if x < 0x40 then (
      if x < 0x38 then (if x < 0x34 then (if x < 0x32 then (if x < 0x31 then 0x58684870 else 0x19fd458f) else if x < 0x33 then 0x876cde94 else 0xb7f87b52)
      else if x < 0x36 then (if x < 0x35 then 0x23d373ab else 0xe2024b72) else if x < 0x37 then 0x578f1fe3 else 0x2aab5566)
      else if x < 0x3c then (if x < 0x3a then (if x < 0x39 then 0x0728ebb2 else 0x03c2b52f) else if x < 0x3b then 0x9a7bc586 else 0xa50837d3)
      else if x < 0x3e then (if x < 0x3d then 0xf2872830 else 0xb2a5bf23) else if x < 0x3f then 0xba6a0302 else 0x5c8216ed
    ) else if x < 0x50 then (
      if x < 0x48 then (if x < 0x44 then (if x < 0x42 then (if x < 0x41 then 0x2b1ccf8a else 0x92b479a7) else if x < 0x43 then 0xf0f207f3 else 0xa1e2694e)
      else if x < 0x46 then (if x < 0x45 then 0xcdf4da65 else 0xd5be0506) else if x < 0x47 then 0x1f6234d1 else 0x8afea6c4)
      else if x < 0x4c then (if x < 0x4a then (if x < 0x49 then 0x9d532e34 else 0xa055f3a2) else if x < 0x4b then 0x32e18a05 else 0x75ebf6a4)
      else if x < 0x4e then (if x < 0x4d then 0x39ec830b else 0xaaef6040) else if x < 0x4f then 0x069f715e else 0x51106ebd
    ) else if x < 0x60 then (
      if x < 0x58 then (if x < 0x54 then (if x < 0x52 then (if x < 0x51 then 0xf98a213e else 0x3d06dd96) else if x < 0x53 then 0xae053edd else 0x46bde64d)
      else if x < 0x56 then (if x < 0x55 then 0xb58d5491 else 0x055dc471) else if x < 0x57 then 0x6fd40604 else 0xff155060)
      else if x < 0x5c then (if x < 0x5a then (if x < 0x59 then 0x24fb9819 else 0x97e9bdd6) else if x < 0x5b then 0xcc434089 else 0x779ed967)
      else if x < 0x5e then (if x < 0x5d then 0xbd42e8b0 else 0x888b8907) else if x < 0x5f then 0x385b19e7 else 0xdbeec879
    ) else if x < 0x70 then (
      if x < 0x68 then (if x < 0x64 then (if x < 0x62 then (if x < 0x61 then 0x470a7ca1 else 0xe90f427c) else if x < 0x63 then 0xc91e84f8 else 0x00000000)
      else if x < 0x66 then (if x < 0x65 then 0x83868009 else 0x48ed2b32) else if x < 0x67 then 0xac70111e else 0x4e725a6c)
      else if x < 0x6c then (if x < 0x6a then (if x < 0x69 then 0xfbff0efd else 0x5638850f) else if x < 0x6b then 0x1ed5ae3d else 0x27392d36)
      else if x < 0x6e then (if x < 0x6d then 0x64d90f0a else 0x21a65c68) else if x < 0x6f then 0xd1545b9b else 0x3a2e3624
    ) else if x < 0x80 then (
      if x < 0x78 then (if x < 0x74 then (if x < 0x72 then (if x < 0x71 then 0xb1670a0c else 0x0fe75793) else if x < 0x73 then 0xd296eeb4 else 0x9e919b1b)
      else if x < 0x76 then (if x < 0x75 then 0x4fc5c080 else 0xa220dc61) else if x < 0x77 then 0x694b775a else 0x161a121c)
      else if x < 0x7c then (if x < 0x7a then (if x < 0x79 then 0x0aba93e2 else 0xe52aa0c0) else if x < 0x7b then 0x43e0223c else 0x1d171b12)
      else if x < 0x7e then (if x < 0x7d then 0x0b0d090e else 0xadc78bf2) else if x < 0x7f then 0xb9a8b62d else 0xc8a91e14
    ) else if x < 0x90 then (
      if x < 0x88 then (if x < 0x84 then (if x < 0x82 then (if x < 0x81 then 0x8519f157 else 0x4c0775af) else if x < 0x83 then 0xbbdd99ee else 0xfd607fa3)
      else if x < 0x86 then (if x < 0x85 then 0x9f2601f7 else 0xbcf5725c) else if x < 0x87 then 0xc53b6644 else 0x347efb5b)
      else if x < 0x8c then (if x < 0x8a then (if x < 0x89 then 0x7629438b else 0xdcc623cb) else if x < 0x8b then 0x68fcedb6 else 0x63f1e4b8)
      else if x < 0x8e then (if x < 0x8d then 0xcadc31d7 else 0x10856342) else if x < 0x8f then 0x40229713 else 0x2011c684
    ) else if x < 0xa0 then (
      if x < 0x98 then (if x < 0x94 then (if x < 0x92 then (if x < 0x91 then 0x7d244a85 else 0xf83dbbd2) else if x < 0x93 then 0x1132f9ae else 0x6da129c7)
      else if x < 0x96 then (if x < 0x95 then 0x4b2f9e1d else 0xf330b2dc) else if x < 0x97 then 0xec52860d else 0xd0e3c177)
      else if x < 0x9c then (if x < 0x9a then (if x < 0x99 then 0x6c16b32b else 0x99b970a9) else if x < 0x9b then 0xfa489411 else 0x2264e947)
      else if x < 0x9e then (if x < 0x9d then 0xc48cfca8 else 0x1a3ff0a0) else if x < 0x9f then 0xd82c7d56 else 0xef903322
    ) else if x < 0xb0 then (
      if x < 0xa8 then (if x < 0xa4 then (if x < 0xa2 then (if x < 0xa1 then 0xc74e4987 else 0xc1d138d9) else if x < 0xa3 then 0xfea2ca8c else 0x360bd498)
      else if x < 0xa6 then (if x < 0xa5 then 0xcf81f5a6 else 0x28de7aa5) else if x < 0xa7 then 0x268eb7da else 0xa4bfad3f)
      else if x < 0xac then (if x < 0xaa then (if x < 0xa9 then 0xe49d3a2c else 0x0d927850) else if x < 0xab then 0x9bcc5f6a else 0x62467e54)
      else if x < 0xae then (if x < 0xad then 0xc2138df6 else 0xe8b8d890) else if x < 0xaf then 0x5ef7392e else 0xf5afc382
    ) else if x < 0xc0 then (
      if x < 0xb8 then (if x < 0xb4 then (if x < 0xb2 then (if x < 0xb1 then 0xbe805d9f else 0x7c93d069) else if x < 0xb3 then 0xa92dd56f else 0xb31225cf)
      else if x < 0xb6 then (if x < 0xb5 then 0x3b99acc8 else 0xa77d1810) else if x < 0xb7 then 0x6e639ce8 else 0x7bbb3bdb)
      else if x < 0xbc then (if x < 0xba then (if x < 0xb9 then 0x097826cd else 0xf418596e) else if x < 0xbb then 0x01b79aec else 0xa89a4f83)
      else if x < 0xbe then (if x < 0xbd then 0x656e95e6 else 0x7ee6ffaa) else if x < 0xbf then 0x08cfbc21 else 0xe6e815ef
    ) else if x < 0xd0 then (
      if x < 0xc8 then (if x < 0xc4 then (if x < 0xc2 then (if x < 0xc1 then 0xd99be7ba else 0xce366f4a) else if x < 0xc3 then 0xd4099fea else 0xd67cb029)
      else if x < 0xc6 then (if x < 0xc5 then 0xafb2a431 else 0x31233f2a) else if x < 0xc7 then 0x3094a5c6 else 0xc066a235)
      else if x < 0xcc then (if x < 0xca then (if x < 0xc9 then 0x37bc4e74 else 0xa6ca82fc) else if x < 0xcb then 0xb0d090e0 else 0x15d8a733)
      else if x < 0xce then (if x < 0xcd then 0x4a9804f1 else 0xf7daec41) else if x < 0xcf then 0x0e50cd7f else 0x2ff69117
    ) else if x < 0xe0 then (
      if x < 0xd8 then (if x < 0xd4 then (if x < 0xd2 then (if x < 0xd1 then 0x8dd64d76 else 0x4db0ef43) else if x < 0xd3 then 0x544daacc else 0xdf0496e4)
      else if x < 0xd6 then (if x < 0xd5 then 0xe3b5d19e else 0x1b886a4c) else if x < 0xd7 then 0xb81f2cc1 else 0x7f516546)
      else if x < 0xdc then (if x < 0xda then (if x < 0xd9 then 0x04ea5e9d else 0x5d358c01) else if x < 0xdb then 0x737487fa else 0x2e410bfb)
      else if x < 0xde then (if x < 0xdd then 0x5a1d67b3 else 0x52d2db92) else if x < 0xdf then 0x335610e9 else 0x1347d66d
    ) else if x < 0xf0 then (
      if x < 0xe8 then (if x < 0xe4 then (if x < 0xe2 then (if x < 0xe1 then 0x8c61d79a else 0x7a0ca137) else if x < 0xe3 then 0x8e14f859 else 0x893c13eb)
      else if x < 0xe6 then (if x < 0xe5 then 0xee27a9ce else 0x35c961b7) else if x < 0xe7 then 0xede51ce1 else 0x3cb1477a)
      else if x < 0xec then (if x < 0xea then (if x < 0xe9 then 0x59dfd29c else 0x3f73f255) else if x < 0xeb then 0x79ce1418 else 0xbf37c773)
      else if x < 0xee then (if x < 0xed then 0xeacdf753 else 0x5baafd5f) else if x < 0xef then 0x146f3ddf else 0x86db4478
    ) else (
      if x < 0xf8 then (if x < 0xf4 then (if x < 0xf2 then (if x < 0xf1 then 0x81f3afca else 0x3ec468b9) else if x < 0xf3 then 0x2c342438 else 0x5f40a3c2)
      else if x < 0xf6 then (if x < 0xf5 then 0x72c31d16 else 0x0c25e2bc) else if x < 0xf7 then 0x8b493c28 else 0x41950dff)
      else if x < 0xfc then (if x < 0xfa then (if x < 0xf9 then 0x7101a839 else 0xdeb30c08) else if x < 0xfb then 0x9ce4b4d8 else 0x90c15664)
      else if x < 0xfe then (if x < 0xfd then 0x6184cb7b else 0x70b632d5) else if x < 0xff then 0x745c6c48 else 0x4257b8d0
    )
  }

  function It1(x: bv8): bv32 {
    if x < 0x10 then (
      if x < 0x08 then (if x < 0x04 then (if x < 0x02 then (if x < 0x01 then 0xa7f45150 else 0x65417e53) else if x < 0x03 then 0xa4171ac3 else 0x5e273a96)
      else if x < 0x06 then (if x < 0x05 then 0x6bab3bcb else 0x459d1ff1) else if x < 0x07 then 0x58faacab else 0x03e34b93)
      else if x < 0x0c then (if x < 0x0a then (if x < 0x09 then 0xfa302055 else 0x6d76adf6) else if x < 0x0b then 0x76cc8891 else 0x4c02f525)
      else if x < 0x0e then (if x < 0x0d then 0xd7e54ffc else 0xcb2ac5d7) else if x < 0x0f then 0x44352680 else 0xa362b58f
    ) else if x < 0x20 then (
      if x < 0x18 then (if x < 0x14 then (if x < 0x12 then (if x < 0x11 then 0x5ab1de49 else 0x1bba2567) else if x < 0x13 then 0x0eea4598 else 0xc0fe5de1)
      else if x < 0x16 then (if x < 0x15 then 0x752fc302 else 0xf04c8112) else if x < 0x17 then 0x97468da3 else 0xf9d36bc6)
      else if x < 0x1c then (if x < 0x1a then (if x < 0x19 then 0x5f8f03e7 else 0x9c921595) else if x < 0x1b then 0x7a6dbfeb else 0x595295da)
      else if x < 0x1e then (if x < 0x1d then 0x83bed42d else 0x217458d3) else if x < 0x1f then 0x69e04929 else 0xc8c98e44
    ) else if x < 0x30 then (
      if x < 0x28 then (if x < 0x24 then (if x < 0x22 then (if x < 0x21 then 0x89c2756a else 0x798ef478) else if x < 0x23 then 0x3e58996b else 0x71b927dd)
      else if x < 0x26 then (if x < 0x25 then 0x4fe1beb6 else 0xad88f017) else if x < 0x27 then 0xac20c966 else 0x3ace7db4)
      else if x < 0x2c then (if x < 0x2a then (if x < 0x29 then 0x4adf6318 else 0x311ae582) else if x < 0x2b then 0x33519760 else 0x7f536245)
      else if x < 0x2e then (if x < 0x2d then 0x7764b1e0 else 0xae6bbb84) else if x < 0x2f then 0xa081fe1c else 0x2b08f994
    ) else if x < 0x40 then (
      if x < 0x38 then (if x < 0x34 then (if x < 0x32 then (if x < 0x31 then 0x68487058 else 0xfd458f19) else if x < 0x33 then 0x6cde9487 else 0xf87b52b7)
      else if x < 0x36 then (if x < 0x35 then 0xd373ab23 else 0x024b72e2) else if x < 0x37 then 0x8f1fe357 else 0xab55662a)
      else if x < 0x3c then (if x < 0x3a then (if x < 0x39 then 0x28ebb207 else 0xc2b52f03) else if x < 0x3b then 0x7bc5869a else 0x0837d3a5)
      else if x < 0x3e then (if x < 0x3d then 0x872830f2 else 0xa5bf23b2) else if x < 0x3f then 0x6a0302ba else 0x8216ed5c
    ) else if x < 0x50 then (
      if x < 0x48 then (if x < 0x44 then (if x < 0x42 then (if x < 0x41 then 0x1ccf8a2b else 0xb479a792) else if x < 0x43 then 0xf207f3f0 else 0xe2694ea1)
      else if x < 0x46 then (if x < 0x45 then 0xf4da65cd else 0xbe0506d5) else if x < 0x47 then 0x6234d11f else 0xfea6c48a)
      else if x < 0x4c then (if x < 0x4a then (if x < 0x49 then 0x532e349d else 0x55f3a2a0) else if x < 0x4b then 0xe18a0532 else 0xebf6a475)
      else if x < 0x4e then (if x < 0x4d then 0xec830b39 else 0xef6040aa) else if x < 0x4f then 0x9f715e06 else 0x106ebd51
    ) else if x < 0x60 then (
      if x < 0x58 then (if x < 0x54 then (if x < 0x52 then (if x < 0x51 then 0x8a213ef9 else 0x06dd963d) else if x < 0x53 then 0x053eddae else 0xbde64d46)
      else if x < 0x56 then (if x < 0x55 then 0x8d5491b5 else 0x5dc47105) else if x < 0x57 then 0xd406046f else 0x155060ff)
      else if x < 0x5c then (if x < 0x5a then (if x < 0x59 then 0xfb981924 else 0xe9bdd697) else if x < 0x5b then 0x434089cc else 0x9ed96777)
      else if x < 0x5e then (if x < 0x5d then 0x42e8b0bd else 0x8b890788) else if x < 0x5f then 0x5b19e738 else 0xeec879db
    ) else if x < 0x70 then (
      if x < 0x68 then (if x < 0x64 then (if x < 0x62 then (if x < 0x61 then 0x0a7ca147 else 0x0f427ce9) else if x < 0x63 then 0x1e84f8c9 else 0x00000000)
      else if x < 0x66 then (if x < 0x65 then 0x86800983 else 0xed2b3248) else if x < 0x67 then 0x70111eac else 0x725a6c4e)
      else if x < 0x6c then (if x < 0x6a then (if x < 0x69 then 0xff0efdfb else 0x38850f56) else if x < 0x6b then 0xd5ae3d1e else 0x392d3627)
      else if x < 0x6e then (if x < 0x6d then 0xd90f0a64 else 0xa65c6821) else if x < 0x6f then 0x545b9bd1 else 0x2e36243a
    ) else if x < 0x80 then (
      if x < 0x78 then (if x < 0x74 then (if x < 0x72 then (if x < 0x71 then 0x670a0cb1 else 0xe757930f) else if x < 0x73 then 0x96eeb4d2 else 0x919b1b9e)
      else if x < 0x76 then (if x < 0x75 then 0xc5c0804f else 0x20dc61a2) else if x < 0x77 then 0x4b775a69 else 0x1a121c16)
      else if x < 0x7c then (if x < 0x7a then (if x < 0x79 then 0xba93e20a else 0x2aa0c0e5) else if x < 0x7b then 0xe0223c43 else 0x171b121d)
      else if x < 0x7e then (if x < 0x7d then 0x0d090e0b else 0xc78bf2ad) else if x < 0x7f then 0xa8b62db9 else 0xa91e14c8
    ) else if x < 0x90 then (
      if x < 0x88 then (if x < 0x84 then (if x < 0x82 then (if x < 0x81 then 0x19f15785 else 0x0775af4c) else if x < 0x83 then 0xdd99eebb else 0x607fa3fd)
      else if x < 0x86 then (if x < 0x85 then 0x2601f79f else 0xf5725cbc) else if x < 0x87 then 0x3b6644c5 else 0x7efb5b34)
      else if x < 0x8c then (if x < 0x8a then (if x < 0x89 then 0x29438b76 else 0xc623cbdc) else if x < 0x8b then 0xfcedb668 else 0xf1e4b863)
      else if x < 0x8e then (if x < 0x8d then 0xdc31d7ca else 0x85634210) else if x < 0x8f then 0x22971340 else 0x11c68420
    ) else if x < 0xa0 then (
      if x < 0x98 then (if x < 0x94 then (if x < 0x92 then (if x < 0x91 then 0x244a857d else 0x3dbbd2f8) else if x < 0x93 then 0x32f9ae11 else 0xa129c76d)
      else if x < 0x96 then (if x < 0x95 then 0x2f9e1d4b else 0x30b2dcf3) else if x < 0x97 then 0x52860dec else 0xe3c177d0)
      else if x < 0x9c then (if x < 0x9a then (if x < 0x99 then 0x16b32b6c else 0xb970a999) else if x < 0x9b then 0x489411fa else 0x64e94722)
      else if x < 0x9e then (if x < 0x9d then 0x8cfca8c4 else 0x3ff0a01a) else if x < 0x9f then 0x2c7d56d8 else 0x903322ef
    ) else if x < 0xb0 then (
      if x < 0xa8 then (if x < 0xa4 then (if x < 0xa2 then (if x < 0xa1 then 0x4e4987c7 else 0xd138d9c1) else if x < 0xa3 then 0xa2ca8cfe else 0x0bd49836)
      else if x < 0xa6 then (if x < 0xa5 then 0x81f5a6cf else 0xde7aa528) else if x < 0xa7 then 0x8eb7da26 else 0xbfad3fa4)
      else if x < 0xac then (if x < 0xaa then (if x < 0xa9 then 0x9d3a2ce4 else 0x9278500d) else if x < 0xab then 0xcc5f6a9b else 0x467e5462)
      else if x < 0xae then (if x < 0xad then 0x138df6c2 else 0xb8d890e8) else if x < 0xaf then 0xf7392e5e else 0xafc382f5
    ) else if x < 0xc0 then (
      if x < 0xb8 then (if x < 0xb4 then (if x < 0xb2 then (if x < 0xb1 then 0x805d9fbe else 0x93d0697c) else if x < 0xb3 then 0x2dd56fa9 else 0x1225cfb3)
      else if x < 0xb6 then (if x < 0xb5 then 0x99acc83b else 0x7d1810a7) else if x < 0xb7 then 0x639ce86e else 0xbb3bdb7b)
      else if x < 0xbc then (if x < 0xba then (if x < 0xb9 then 0x7826cd09 else 0x18596ef4) else if x < 0xbb then 0xb79aec01 else 0x9a4f83a8)
      else if x < 0xbe then (if x < 0xbd then 0x6e95e665 else 0xe6ffaa7e) else if x < 0xbf then 0xcfbc2108 else 0xe815efe6
    ) else if x < 0xd0 then (
      if x < 0xc8 then (if x < 0xc4 then (if x < 0xc2 then (if x < 0xc1 then 0x9be7bad9 else 0x366f4ace) else if x < 0xc3 then 0x099fead4 else 0x7cb029d6)
      else if x < 0xc6 then (if x < 0xc5 then 0xb2a431af else 0x233f2a31) else if x < 0xc7 then 0x94a5c630 else 0x66a235c0)
      else if x < 0xcc then (if x < 0xca then (if x < 0xc9 then 0xbc4e7437 else 0xca82fca6) else if x < 0xcb then 0xd090e0b0 else 0xd8a73315)
      else if x < 0xce then (if x < 0xcd then 0x9804f14a else 0xdaec41f7) else if x < 0xcf then 0x50cd7f0e else 0xf691172f
    ) else if x < 0xe0 then (
      if x < 0xd8 then (if x < 0xd4 then (if x < 0xd2 then (if x < 0xd1 then 0xd64d768d else 0xb0ef434d) else if x < 0xd3 then 0x4daacc54 else 0x0496e4df)
      else if x < 0xd6 then (if x < 0xd5 then 0xb5d19ee3 else 0x886a4c1b) else if x < 0xd7 then 0x1f2cc1b8 else 0x5165467f)
      else if x < 0xdc then (if x < 0xda then (if x < 0xd9 then 0xea5e9d04 else 0x358c015d) else if x < 0xdb then 0x7487fa73 else 0x410bfb2e)
      else if x < 0xde then (if x < 0xdd then 0x1d67b35a else 0xd2db9252) else if x < 0xdf then 0x5610e933 else 0x47d66d13
    ) else if x < 0xf0 then (
      if x < 0xe8 then (if x < 0xe4 then (if x < 0xe2 then (if x < 0xe1 then 0x61d79a8c else 0x0ca1377a) else if x < 0xe3 then 0x14f8598e else 0x3c13eb89)
      else if x < 0xe6 then (if x < 0xe5 then 0x27a9ceee else 0xc961b735) else if x < 0xe7 then 0xe51ce1ed else 0xb1477a3c)
      else if x < 0xec then (if x < 0xea then (if x < 0xe9 then 0xdfd29c59 else 0x73f2553f) else if x < 0xeb then 0xce141879 else 0x37c773bf)
      else if x < 0xee then (if x < 0xed then 0xcdf753ea else 0xaafd5f5b) else if x < 0xef then 0x6f3ddf14 else 0xdb447886
    ) else (
      if x < 0xf8 then (if x < 0xf4 then (if x < 0xf2 then (if x < 0xf1 then 0xf3afca81 else 0xc468b93e) else if x < 0xf3 then 0x3424382c else 0x40a3c25f)
      else if x < 0xf6 then (if x < 0xf5 then 0xc31d1672 else 0x25e2bc0c) else if x < 0xf7 then 0x493c288b else 0x950dff41)
      else if x < 0xfc then (if x < 0xfa then (if x < 0xf9 then 0x01a83971 else 0xb30c08de) else if x < 0xfb then 0xe4b4d89c else 0xc1566490)
      else if x < 0xfe then (if x < 0xfd then 0x84cb7b61 else 0xb632d570) else if x < 0xff then 0x5c6c4874 else 0x57b8d042
    )
  }

  function It2(x: bv8): bv32 {
    if x < 0x10 then (
      if x < 0x08 then (if x < 0x04 then (if x < 0x02 then (if x < 0x01 then 0xf45150a7 else 0x417e5365) else if x < 0x03 then 0x171ac3a4 else 0x273a965e)
      else if x < 0x06 then (if x < 0x05 then 0xab3bcb6b else 0x9d1ff145) else if x < 0x07 then 0xfaacab58 else 0xe34b9303)
      else if x < 0x0c then (if x < 0x0a then (if x < 0x09 then 0x302055fa else 0x76adf66d) else if x < 0x0b then 0xcc889176 else 0x02f5254c)
      else if x < 0x0e then (if x < 0x0d then 0xe54ffcd7 else 0x2ac5d7cb) else if x < 0x0f then 0x35268044 else 0x62b58fa3
    ) else if x < 0x20 then (
      if x < 0x18 then (if x < 0x14 then (if x < 0x12 then (if x < 0x11 then 0xb1de495a else 0xba25671b) else if x < 0x13 then 0xea45980e else 0xfe5de1c0)
      else if x < 0x16 then (if x < 0x15 then 0x2fc30275 else 0x4c8112f0) else if x < 0x17 then 0x468da397 else 0xd36bc6f9)
      else if x < 0x1c then (if x < 0x1a then (if x < 0x19 then 0x8f03e75f else 0x9215959c) else if x < 0x1b then 0x6dbfeb7a else 0x5295da59)
      else if x < 0x1e then (if x < 0x1d then 0xbed42d83 else 0x7458d321) else if x < 0x1f then 0xe0492969 else 0xc98e44c8
    ) else if x < 0x30 then (
      if x < 0x28 then (if x < 0x24 then (if x < 0x22 then (if x < 0x21 then 0xc2756a89 else 0x8ef47879) else if x < 0x23 then 0x58996b3e else 0xb927dd71)
      else if x < 0x26 then (if x < 0x25 then 0xe1beb64f else 0x88f017ad) else if x < 0x27 then 0x20c966ac else 0xce7db43a)
      else if x < 0x2c then (if x < 0x2a then (if x < 0x29 then 0xdf63184a else 0x1ae58231) else if x < 0x2b then 0x51976033 else 0x5362457f)
      else if x < 0x2e then (if x < 0x2d then 0x64b1e077 else 0x6bbb84ae) else if x < 0x2f then 0x81fe1ca0 else 0x08f9942b
    ) else if x < 0x40 then (
      if x < 0x38 then (if x < 0x34 then (if x < 0x32 then (if x < 0x31 then 0x48705868 else 0x458f19fd) else if x < 0x33 then 0xde94876c else 0x7b52b7f8)
      else if x < 0x36 then (if x < 0x35 then 0x73ab23d3 else 0x4b72e202) else if x < 0x37 then 0x1fe3578f else 0x55662aab)
      else if x < 0x3c then (if x < 0x3a then (if x < 0x39 then 0xebb20728 else 0xb52f03c2) else if x < 0x3b then 0xc5869a7b else 0x37d3a508)
      else if x < 0x3e then (if x < 0x3d then 0x2830f287 else 0xbf23b2a5) else if x < 0x3f then 0x0302ba6a else 0x16ed5c82
    ) else if x < 0x50 then (
      if x < 0x48 then (if x < 0x44 then (if x < 0x42 then (if x < 0x41 then 0xcf8a2b1c else 0x79a792b4) else if x < 0x43 then 0x07f3f0f2 else 0x694ea1e2)
      else if x < 0x46 then (if x < 0x45 then 0xda65cdf4 else 0x0506d5be) else if x < 0x47 then 0x34d11f62 else 0xa6c48afe)
      else if x < 0x4c then (if x < 0x4a then (if x < 0x49 then 0x2e349d53 else 0xf3a2a055) else if x < 0x4b then 0x8a0532e1 else 0xf6a475eb)
      else if x < 0x4e then (if x < 0x4d then 0x830b39ec else 0x6040aaef) else if x < 0x4f then 0x715e069f else 0x6ebd5110
    ) else if x < 0x60 then (
      if x < 0x58 then (if x < 0x54 then (if x < 0x52 then (if x < 0x51 then 0x213ef98a else 0xdd963d06) else if x < 0x53 then 0x3eddae05 else 0xe64d46bd)
      else if x < 0x56 then (if x < 0x55 then 0x5491b58d else 0xc471055d) else if x < 0x57 then 0x06046fd4 else 0x5060ff15)
      else if x < 0x5c then (if x < 0x5a then (if x < 0x59 then 0x981924fb else 0xbdd697e9) else if x < 0x5b then 0x4089cc43 else 0xd967779e)
      else if x < 0x5e then (if x < 0x5d then 0xe8b0bd42 else 0x8907888b) else if x < 0x5f then 0x19e7385b else 0xc879dbee
    ) else if x < 0x70 then (
      if x < 0x68 then (if x < 0x64 then (if x < 0x62 then (if x < 0x61 then 0x7ca1470a else 0x427ce90f) else if x < 0x63 then 0x84f8c91e else 0x00000000)
      else if x < 0x66 then (if x < 0x65 then 0x80098386 else 0x2b3248ed) else if x < 0x67 then 0x111eac70 else 0x5a6c4e72)
      else if x < 0x6c then (if x < 0x6a then (if x < 0x69 then 0x0efdfbff else 0x850f5638) else if x < 0x6b then 0xae3d1ed5 else 0x2d362739)
      else if x < 0x6e then (if x < 0x6d then 0x0f0a64d9 else 0x5c6821a6) else if x < 0x6f then 0x5b9bd154 else 0x36243a2e
    ) else if x < 0x80 then (
      if x < 0x78 then (if x < 0x74 then (if x < 0x72 then (if x < 0x71 then 0x0a0cb167 else 0x57930fe7) else if x < 0x73 then 0xeeb4d296 else 0x9b1b9e91)
      else if x < 0x76 then (if x < 0x75 then 0xc0804fc5 else 0xdc61a220) else if x < 0x77 then 0x775a694b else 0x121c161a)
      else if x < 0x7c then (if x < 0x7a then (if x < 0x79 then 0x93e20aba else 0xa0c0e52a) else if x < 0x7b then 0x223c43e0 else 0x1b121d17)
      else if x < 0x7e then (if x < 0x7d then 0x090e0b0d else 0x8bf2adc7) else if x < 0x7f then 0xb62db9a8 else 0x1e14c8a9
    ) else if x < 0x90 then (
      if x < 0x88 then (if x < 0x84 then (if x < 0x82 then (if x < 0x81 then 0xf1578519 else 0x75af4c07) else if x < 0x83 then 0x99eebbdd else 0x7fa3fd60)
      else if x < 0x86 then (if x < 0x85 then 0x01f79f26 else 0x725cbcf5) else if x < 0x87 then 0x6644c53b else 0xfb5b347e)
      else if x < 0x8c then (if x < 0x8a then (if x < 0x89 then 0x438b7629 else 0x23cbdcc6) else if x < 0x8b then 0xedb668fc else 0xe4b863f1)
      else if x < 0x8e then (if x < 0x8d then 0x31d7cadc else 0x63421085) else if x < 0x8f then 0x97134022 else 0xc6842011
    ) else if x < 0xa0 then (
      if x < 0x98 then (if x < 0x94 then (if x < 0x92 then (if x < 0x91 then 0x4a857d24 else 0xbbd2f83d) else if x < 0x93 then 0xf9ae1132 else 0x29c76da1)
      else if x < 0x96 then (if x < 0x95 then 0x9e1d4b2f else 0xb2dcf330) else if x < 0x97 then 0x860dec52 else 0xc177d0e3)
      else if x < 0x9c then (if x < 0x9a then (if x < 0x99 then 0xb32b6c16 else 0x70a999b9) else if x < 0x9b then 0x9411fa48 else 0xe9472264)
      else if x < 0x9e then (if x < 0x9d then 0xfca8c48c else 0xf0a01a3f) else if x < 0x9f then 0x7d56d82c else 0x3322ef90
    ) else if x < 0xb0 then (
      if x < 0xa8 then (if x < 0xa4 then (if x < 0xa2 then (if x < 0xa1 then 0x4987c74e else 0x38d9c1d1) else if x < 0xa3 then 0xca8cfea2 else 0xd498360b)
      else if x < 0xa6 then (if x < 0xa5 then 0xf5a6cf81 else 0x7aa528de) else if x < 0xa7 then 0xb7da268e else 0xad3fa4bf)
      else if x < 0xac then (if x < 0xaa then (if x < 0xa9 then 0x3a2ce49d else 0x78500d92) else if x < 0xab then 0x5f6a9bcc else 0x7e546246)
      else if x < 0xae then (if x < 0xad then 0x8df6c213 else 0xd890e8b8) else if x < 0xaf then 0x392e5ef7 else 0xc382f5af
    ) else if x < 0xc0 then (
      if x < 0xb8 then (if x < 0xb4 then (if x < 0xb2 then (if x < 0xb1 then 0x5d9fbe80 else 0xd0697c93) else if x < 0xb3 then 0xd56fa92d else 0x25cfb312)
      else if x < 0xb6 then (if x < 0xb5 then 0xacc83b99 else 0x1810a77d) else if x < 0xb7 then 0x9ce86e63 else 0x3bdb7bbb)
      else if x < 0xbc then (if x < 0xba then (if x < 0xb9 then 0x26cd0978 else 0x596ef418) else if x < 0xbb then 0x9aec01b7 else 0x4f83a89a)
      else if x < 0xbe then (if x < 0xbd then 0x95e6656e else 0xffaa7ee6) else if x < 0xbf then 0xbc2108cf else 0x15efe6e8
    ) else if x < 0xd0 then (
      if x < 0xc8 then (if x < 0xc4 then (if x < 0xc2 then (if x < 0xc1 then 0xe7bad99b else 0x6f4ace36) else if x < 0xc3 then 0x9fead409 else 0xb029d67c)
      else if x < 0xc6 then (if x < 0xc5 then 0xa431afb2 else 0x3f2a3123) else if x < 0xc7 then 0xa5c63094 else 0xa235c066)
      else if x < 0xcc then (if x < 0xca then (if x < 0xc9 then 0x4e7437bc else 0x82fca6ca) else if x < 0xcb then 0x90e0b0d0 else 0xa73315d8)
      else if x < 0xce then (if x < 0xcd then 0x04f14a98 else 0xec41f7da) else if x < 0xcf then 0xcd7f0e50 else 0x91172ff6
    ) else if x < 0xe0 then (
      if x < 0xd8 then (if x < 0xd4 then (if x < 0xd2 then (if x < 0xd1 then 0x4d768dd6 else 0xef434db0) else if x < 0xd3 then 0xaacc544d else 0x96e4df04)
      else if x < 0xd6 then (if x < 0xd5 then 0xd19ee3b5 else 0x6a4c1b88) else if x < 0xd7 then 0x2cc1b81f else 0x65467f51)
      else if x < 0xdc then (if x < 0xda then (if x < 0xd9 then 0x5e9d04ea else 0x8c015d35) else if x < 0xdb then 0x87fa7374 else 0x0bfb2e41)
      else if x < 0xde then (if x < 0xdd then 0x67b35a1d else 0xdb9252d2) else if x < 0xdf then 0x10e93356 else 0xd66d1347
    ) else if x < 0xf0 then (
      if x < 0xe8 then (if x < 0xe4 then (if x < 0xe2 then (if x < 0xe1 then 0xd79a8c61 else 0xa1377a0c) else if x < 0xe3 then 0xf8598e14 else 0x13eb893c)
      else if x < 0xe6 then (if x < 0xe5 then 0xa9ceee27 else 0x61b735c9) else if x < 0xe7 then 0x1ce1ede5 else 0x477a3cb1)
      else if x < 0xec then (if x < 0xea then (if x < 0xe9 then 0xd29c59df else 0xf2553f73) else if x < 0xeb then 0x141879ce else 0xc773bf37)
      else if x < 0xee then (if x < 0xed then 0xf753eacd else 0xfd5f5baa) else if x < 0xef then 0x3ddf146f else 0x447886db
    ) else (
      if x < 0xf8 then (if x < 0xf4 then (if x < 0xf2 then (if x < 0xf1 then 0xafca81f3 else 0x68b93ec4) else if x < 0xf3 then 0x24382c34 else 0xa3c25f40)
      else if x < 0xf6 then (if x < 0xf5 then 0x1d1672c3 else 0xe2bc0c25) else if x < 0xf7 then 0x3c288b49 else 0x0dff4195)
      else if x < 0xfc then (if x < 0xfa then (if x < 0xf9 then 0xa8397101 else 0x0c08deb3) else if x < 0xfb then 0xb4d89ce4 else 0x566490c1)
      else if x < 0xfe then (if x < 0xfd then 0xcb7b6184 else 0x32d570b6) else if x < 0xff then 0x6c48745c else 0xb8d04257
    )
  }

  function It3(x: bv8): bv32 {
    if x < 0x10 then (
      if x < 0x08 then (if x < 0x04 then (if x < 0x02 then (if x < 0x01 then 0x5150a7f4 else 0x7e536541) else if x < 0x03 then 0x1ac3a417 else 0x3a965e27)
      else if x < 0x06 then (if x < 0x05 then 0x3bcb6bab else 0x1ff1459d) else if x < 0x07 then 0xacab58fa else 0x4b9303e3)
      else if x < 0x0c then (if x < 0x0a then (if x < 0x09 then 0x2055fa30 else 0xadf66d76) else if x < 0x0b then 0x889176cc else 0xf5254c02)
      else if x < 0x0e then (if x < 0x0d then 0x4ffcd7e5 else 0xc5d7cb2a) else if x < 0x0f then 0x26804435 else 0xb58fa362
    ) else if x < 0x20 then (
      if x < 0x18 then (if x < 0x14 then (if x < 0x12 then (if x < 0x11 then 0xde495ab1 else 0x25671bba) else if x < 0x13 then 0x45980eea else 0x5de1c0fe)
      else if x < 0x16 then (if x < 0x15 then 0xc302752f else 0x8112f04c) else if x < 0x17 then 0x8da39746 else 0x6bc6f9d3)
      else if x < 0x1c then (if x < 0x1a then (if x < 0x19 then 0x03e75f8f else 0x15959c92) else if x < 0x1b then 0xbfeb7a6d else 0x95da5952)
      else if x < 0x1e then (if x < 0x1d then 0xd42d83be else 0x58d32174) else if x < 0x1f then 0x492969e0 else 0x8e44c8c9
    ) else if x < 0x30 then (
      if x < 0x28 then (if x < 0x24 then (if x < 0x22 then (if x < 0x21 then 0x756a89c2 else 0xf478798e) else if x < 0x23 then 0x996b3e58 else 0x27dd71b9)
      else if x < 0x26 then (if x < 0x25 then 0xbeb64fe1 else 0xf017ad88) else if x < 0x27 then 0xc966ac20 else 0x7db43ace)
      else if x < 0x2c then (if x < 0x2a then (if x < 0x29 then 0x63184adf else 0xe582311a) else if x < 0x2b then 0x97603351 else 0x62457f53)
      else if x < 0x2e then (if x < 0x2d then 0xb1e07764 else 0xbb84ae6b) else if x < 0x2f then 0xfe1ca081 else 0xf9942b08
    ) else if x < 0x40 then (
      if x < 0x38 then (if x < 0x34 then (if x < 0x32 then (if x < 0x31 then 0x70586848 else 0x8f19fd45) else if x < 0x33 then 0x94876cde else 0x52b7f87b)
      else if x < 0x36 then (if x < 0x35 then 0xab23d373 else 0x72e2024b) else if x < 0x37 then 0xe3578f1f else 0x662aab55)
      else if x < 0x3c then (if x < 0x3a then (if x < 0x39 then 0xb20728eb else 0x2f03c2b5) else if x < 0x3b then 0x869a7bc5 else 0xd3a50837)
      else if x < 0x3e then (if x < 0x3d then 0x30f28728 else 0x23b2a5bf) else if x < 0x3f then 0x02ba6a03 else 0xed5c8216
    ) else if x < 0x50 then (
      if x < 0x48 then (if x < 0x44 then (if x < 0x42 then (if x < 0x41 then 0x8a2b1ccf else 0xa792b479) else if x < 0x43 then 0xf3f0f207 else 0x4ea1e269)
      else if x < 0x46 then (if x < 0x45 then 0x65cdf4da else 0x06d5be05) else if x < 0x47 then 0xd11f6234 else 0xc48afea6)
      else if x < 0x4c then (if x < 0x4a then (if x < 0x49 then 0x349d532e else 0xa2a055f3) else if x < 0x4b then 0x0532e18a else 0xa475ebf6)
      else if x < 0x4e then (if x < 0x4d then 0x0b39ec83 else 0x40aaef60) else if x < 0x4f then 0x5e069f71 else 0xbd51106e
    ) else if x < 0x60 then (
      if x < 0x58 then (if x < 0x54 then (if x < 0x52 then (if x < 0x51 then 0x3ef98a21 else 0x963d06dd) else if x < 0x53 then 0xddae053e else 0x4d46bde6)
      else if x < 0x56 then (if x < 0x55 then 0x91b58d54 else 0x71055dc4) else if x < 0x57 then 0x046fd406 else 0x60ff1550)
      else if x < 0x5c then (if x < 0x5a then (if x < 0x59 then 0x1924fb98 else 0xd697e9bd) else if x < 0x5b then 0x89cc4340 else 0x67779ed9)
      else if x < 0x5e then (if x < 0x5d then 0xb0bd42e8 else 0x07888b89) else if x < 0x5f then 0xe7385b19 else 0x79dbeec8
    ) else if x < 0x70 then (
      if x < 0x68 then (if x < 0x64 then (if x < 0x62 then (if x < 0x61 then 0xa1470a7c else 0x7ce90f42) else if x < 0x63 then 0xf8c91e84 else 0x00000000)
      else if x < 0x66 then (if x < 0x65 then 0x09838680 else 0x3248ed2b) else if x < 0x67 then 0x1eac7011 else 0x6c4e725a)
      else if x < 0x6c then (if x < 0x6a then (if x < 0x69 then 0xfdfbff0e else 0x0f563885) else if x < 0x6b then 0x3d1ed5ae else 0x3627392d)
      else if x < 0x6e then (if x < 0x6d then 0x0a64d90f else 0x6821a65c) else if x < 0x6f then 0x9bd1545b else 0x243a2e36
    ) else if x < 0x80 then (
      if x < 0x78 then (if x < 0x74 then (if x < 0x72 then (if x < 0x71 then 0x0cb1670a else 0x930fe757) else if x < 0x73 then 0xb4d296ee else 0x1b9e919b)
      else if x < 0x76 then (if x < 0x75 then 0x804fc5c0 else 0x61a220dc) else if x < 0x77 then 0x5a694b77 else 0x1c161a12)
      else if x < 0x7c then (if x < 0x7a then (if x < 0x79 then 0xe20aba93 else 0xc0e52aa0) else if x < 0x7b then 0x3c43e022 else 0x121d171b)
      else if x < 0x7e then (if x < 0x7d then 0x0e0b0d09 else 0xf2adc78b) else if x < 0x7f then 0x2db9a8b6 else 0x14c8a91e
    ) else if x < 0x90 then (
      if x < 0x88 then (if x < 0x84 then (if x < 0x82 then (if x < 0x81 then 0x578519f1 else 0xaf4c0775) else if x < 0x83 then 0xeebbdd99 else 0xa3fd607f)
      else if x < 0x86 then (if x < 0x85 then 0xf79f2601 else 0x5cbcf572) else if x < 0x87 then 0x44c53b66 else 0x5b347efb)
      else if x < 0x8c then (if x < 0x8a then (if x < 0x89 then 0x8b762943 else 0xcbdcc623) else if x < 0x8b then 0xb668fced else 0xb863f1e4)
      else if x < 0x8e then (if x < 0x8d then 0xd7cadc31 else 0x42108563) else if x < 0x8f then 0x13402297 else 0x842011c6
    ) else if x < 0xa0 then (
      if x < 0x98 then (if x < 0x94 then (if x < 0x92 then (if x < 0x91 then 0x857d244a else 0xd2f83dbb) else if x < 0x93 then 0xae1132f9 else 0xc76da129)
      else if x < 0x96 then (if x < 0x95 then 0x1d4b2f9e else 0xdcf330b2) else if x < 0x97 then 0x0dec5286 else 0x77d0e3c1)
      else if x < 0x9c then (if x < 0x9a then (if x < 0x99 then 0x2b6c16b3 else 0xa999b970) else if x < 0x9b then 0x11fa4894 else 0x472264e9)
      else if x < 0x9e then (if x < 0x9d then 0xa8c48cfc else 0xa01a3ff0) else if x < 0x9f then 0x56d82c7d else 0x22ef9033
    ) else if x < 0xb0 then (
      if x < 0xa8 then (if x < 0xa4 then (if x < 0xa2 then (if x < 0xa1 then 0x87c74e49 else 0xd9c1d138) else if x < 0xa3 then 0x8cfea2ca else 0x98360bd4)
      else if x < 0xa6 then (if x < 0xa5 then 0xa6cf81f5 else 0xa528de7a) else if x < 0xa7 then 0xda268eb7 else 0x3fa4bfad)
      else if x < 0xac then (if x < 0xaa then (if x < 0xa9 then 0x2ce49d3a else 0x500d9278) else if x < 0xab then 0x6a9bcc5f else 0x5462467e)
      else if x < 0xae then (if x < 0xad then 0xf6c2138d else 0x90e8b8d8) else if x < 0xaf then 0x2e5ef739 else 0x82f5afc3
    ) else if x < 0xc0 then (
      if x < 0xb8 then (if x < 0xb4 then (if x < 0xb2 then (if x < 0xb1 then 0x9fbe805d else 0x697c93d0) else if x < 0xb3 then 0x6fa92dd5 else 0xcfb31225)
      else if x < 0xb6 then (if x < 0xb5 then 0xc83b99ac else 0x10a77d18) else if x < 0xb7 then 0xe86e639c else 0xdb7bbb3b)
      else if x < 0xbc then (if x < 0xba then (if x < 0xb9 then 0xcd097826 else 0x6ef41859) else if x < 0xbb then 0xec01b79a else 0x83a89a4f)
      else if x < 0xbe then (if x < 0xbd then 0xe6656e95 else 0xaa7ee6ff) else if x < 0xbf then 0x2108cfbc else 0xefe6e815
    ) else if x < 0xd0 then (
      if x < 0xc8 then (if x < 0xc4 then (if x < 0xc2 then (if x < 0xc1 then 0xbad99be7 else 0x4ace366f) else if x < 0xc3 then 0xead4099f else 0x29d67cb0)
      else if x < 0xc6 then (if x < 0xc5 then 0x31afb2a4 else 0x2a31233f) else if x < 0xc7 then 0xc63094a5 else 0x35c066a2)
      else if x < 0xcc then (if x < 0xca then (if x < 0xc9 then 0x7437bc4e else 0xfca6ca82) else if x < 0xcb then 0xe0b0d090 else 0x3315d8a7)
      else if x < 0xce then (if x < 0xcd then 0xf14a9804 else 0x41f7daec) else if x < 0xcf then 0x7f0e50cd else 0x172ff691
    ) else if x < 0xe0 then (
      if x < 0xd8 then (if x < 0xd4 then (if x < 0xd2 then (if x < 0xd1 then 0x768dd64d else 0x434db0ef) else if x < 0xd3 then 0xcc544daa else 0xe4df0496)
      else if x < 0xd6 then (if x < 0xd5 then 0x9ee3b5d1 else 0x4c1b886a) else if x < 0xd7 then 0xc1b81f2c else 0x467f5165)
      else if x < 0xdc then (if x < 0xda then (if x < 0xd9 then 0x9d04ea5e else 0x015d358c) else if x < 0xdb then 0xfa737487 else 0xfb2e410b)
      else if x < 0xde then (if x < 0xdd then 0xb35a1d67 else 0x9252d2db) else if x < 0xdf then 0xe9335610 else 0x6d1347d6
    ) else if x < 0xf0 then (
      if x < 0xe8 then (if x < 0xe4 then (if x < 0xe2 then (if x < 0xe1 then 0x9a8c61d7 else 0x377a0ca1) else if x < 0xe3 then 0x598e14f8 else 0xeb893c13)
      else if x < 0xe6 then (if x < 0xe5 then 0xceee27a9 else 0xb735c961) else if x < 0xe7 then 0xe1ede51c else 0x7a3cb147)
      else if x < 0xec then (if x < 0xea then (if x < 0xe9 then 0x9c59dfd2 else 0x553f73f2) else if x < 0xeb then 0x1879ce14 else 0x73bf37c7)
      else if x < 0xee then (if x < 0xed then 0x53eacdf7 else 0x5f5baafd) else if x < 0xef then 0xdf146f3d else 0x7886db44
    ) else (
      if x < 0xf8 then (if x < 0xf4 then (if x < 0xf2 then (if x < 0xf1 then 0xca81f3af else 0xb93ec468) else if x < 0xf3 then 0x382c3424 else 0xc25f40a3)
      else if x < 0xf6 then (if x < 0xf5 then 0x1672c31d else 0xbc0c25e2) else if x < 0xf7 then 0x288b493c else 0xff41950d)
      else if x < 0xfc then (if x < 0xfa then (if x < 0xf9 then 0x397101a8 else 0x08deb30c) else if x < 0xfb then 0xd89ce4b4 else 0x6490c156)
      else if x < 0xfe then (if x < 0xfd then 0x7b6184cb else 0xd570b632) else if x < 0xff then 0x48745c6c else 0xd04257b8
    )
  }

  function Il0(x: bv8): bv32 {
    if x < 0x10 then (
      if x < 0x08 then (if x < 0x04 then (if x < 0x02 then (if x < 0x01 then 0x00000052 else 0x00000009) else if x < 0x03 then 0x0000006a else 0x000000d5)
      else if x < 0x06 then (if x < 0x05 then 0x00000030 else 0x00000036) else if x < 0x07 then 0x000000a5 else 0x00000038)
      else if x < 0x0c then (if x < 0x0a then (if x < 0x09 then 0x000000bf else 0x00000040) else if x < 0x0b then 0x000000a3 else 0x0000009e)
      else if x < 0x0e then (if x < 0x0d then 0x00000081 else 0x000000f3) else if x < 0x0f then 0x000000d7 else 0x000000fb
    ) else if x < 0x20 then (
      if x < 0x18 then (if x < 0x14 then (if x < 0x12 then (if x < 0x11 then 0x0000007c else 0x000000e3) else if x < 0x13 then 0x00000039 else 0x00000082)
      else if x < 0x16 then (if x < 0x15 then 0x0000009b else 0x0000002f) else if x < 0x17 then 0x000000ff else 0x00000087)
      else if x < 0x1c then (if x < 0x1a then (if x < 0x19 then 0x00000034 else 0x0000008e) else if x < 0x1b then 0x00000043 else 0x00000044)
      else if x < 0x1e then (if x < 0x1d then 0x000000c4 else 0x000000de) else if x < 0x1f then 0x000000e9 else 0x000000cb
    ) else if x < 0x30 then (
      if x < 0x28 then (if x < 0x24 then (if x < 0x22 then (if x < 0x21 then 0x00000054 else 0x0000007b) else if x < 0x23 then 0x00000094 else 0x00000032)
      else if x < 0x26 then (if x < 0x25 then 0x000000a6 else 0x000000c2) else if x < 0x27 then 0x00000023 else 0x0000003d)
      else if x < 0x2c then (if x < 0x2a then (if x < 0x29 then 0x000000ee else 0x0000004c) else if x < 0x2b then 0x00000095 else 0x0000000b)
      else if x < 0x2e then (if x < 0x2d then 0x00000042 else 0x000000fa) else if x < 0x2f then 0x000000c3 else 0x0000004e
    ) else if x < 0x40 then (
      if x < 0x38 then (if x < 0x34 then (if x < 0x32 then (if x < 0x31 then 0x00000008 else 0x0000002e) else if x < 0x33 then 0x000000a1 else 0x00000066)
      else if x < 0x36 then (if x < 0x35 then 0x00000028 else 0x000000d9) else if x < 0x37 then 0x00000024 else 0x000000b2)
      else if x < 0x3c then (if x < 0x3a then (if x < 0x39 then 0x00000076 else 0x0000005b) else if x < 0x3b then 0x000000a2 else 0x00000049)
      else if x < 0x3e then (if x < 0x3d then 0x0000006d else 0x0000008b) else if x < 0x3f then 0x000000d1 else 0x00000025
    ) else if x < 0x50 then (
      if x < 0x48 then (if x < 0x44 then (if x < 0x42 then (if x < 0x41 then 0x00000072 else 0x000000f8) else if x < 0x43 then 0x000000f6 else 0x00000064)
      else if x < 0x46 then (if x < 0x45 then 0x00000086 else 0x00000068) else if x < 0x47 then 0x00000098 else 0x00000016)
      else if x < 0x4c then (if x < 0x4a then (if x < 0x49 then 0x000000d4 else 0x000000a4) else if x < 0x4b then 0x0000005c else 0x000000cc)
      else if x < 0x4e then (if x < 0x4d then 0x0000005d else 0x00000065) else if x < 0x4f then 0x000000b6 else 0x00000092
    ) else if x < 0x60 then (
      if x < 0x58 then (if x < 0x54 then (if x < 0x52 then (if x < 0x51 then 0x0000006c else 0x00000070) else if x < 0x53 then 0x00000048 else 0x00000050)
      else if x < 0x56 then (if x < 0x55 then 0x000000fd else 0x000000ed) else if x < 0x57 then 0x000000b9 else 0x000000da)
      else if x < 0x5c then (if x < 0x5a then (if x < 0x59 then 0x0000005e else 0x00000015) else if x < 0x5b then 0x00000046 else 0x00000057)
      else if x < 0x5e then (if x < 0x5d then 0x000000a7 else 0x0000008d) else if x < 0x5f then 0x0000009d else 0x00000084
    ) else if x < 0x70 then (
      if x < 0x68 then (if x < 0x64 then (if x < 0x62 then (if x < 0x61 then 0x00000090 else 0x000000d8) else if x < 0x63 then 0x000000ab else 0x00000000)
      else if x < 0x66 then (if x < 0x65 then 0x0000008c else 0x000000bc) else if x < 0x67 then 0x000000d3 else 0x0000000a)
      else if x < 0x6c then (if x < 0x6a then (if x < 0x69 then 0x000000f7 else 0x000000e4) else if x < 0x6b then 0x00000058 else 0x00000005)
      else if x < 0x6e then (if x < 0x6d then 0x000000b8 else 0x000000b3) else if x < 0x6f then 0x00000045 else 0x00000006
    ) else if x < 0x80 then (
      if x < 0x78 then (if x < 0x74 then (if x < 0x72 then (if x < 0x71 then 0x000000d0 else 0x0000002c) else if x < 0x73 then 0x0000001e else 0x0000008f)
      else if x < 0x76 then (if x < 0x75 then 0x000000ca else 0x0000003f) else if x < 0x77 then 0x0000000f else 0x00000002)
      else if x < 0x7c then (if x < 0x7a then (if x < 0x79 then 0x000000c1 else 0x000000af) else if x < 0x7b then 0x000000bd else 0x00000003)
      else if x < 0x7e then (if x < 0x7d then 0x00000001 else 0x00000013) else if x < 0x7f then 0x0000008a else 0x0000006b
    ) else if x < 0x90 then (
      if x < 0x88 then (if x < 0x84 then (if x < 0x82 then (if x < 0x81 then 0x0000003a else 0x00000091) else if x < 0x83 then 0x00000011 else 0x00000041)
      else if x < 0x86 then (if x < 0x85 then 0x0000004f else 0x00000067) else if x < 0x87 then 0x000000dc else 0x000000ea)
      else if x < 0x8c then (if x < 0x8a then (if x < 0x89 then 0x00000097 else 0x000000f2) else if x < 0x8b then 0x000000cf else 0x000000ce)
      else if x < 0x8e then (if x < 0x8d then 0x000000f0 else 0x000000b4) else if x < 0x8f then 0x000000e6 else 0x00000073
    ) else if x < 0xa0 then (
      if x < 0x98 then (if x < 0x94 then (if x < 0x92 then (if x < 0x91 then 0x00000096 else 0x000000ac) else if x < 0x93 then 0x00000074 else 0x00000022)
      else if x < 0x96 then (if x < 0x95 then 0x000000e7 else 0x000000ad) else if x < 0x97 then 0x00000035 else 0x00000085)
      else if x < 0x9c then (if x < 0x9a then (if x < 0x99 then 0x000000e2 else 0x000000f9) else if x < 0x9b then 0x00000037 else 0x000000e8)
      else if x < 0x9e then (if x < 0x9d then 0x0000001c else 0x00000075) else if x < 0x9f then 0x000000df else 0x0000006e
    ) else if x < 0xb0 then (
      if x < 0xa8 then (if x < 0xa4 then (if x < 0xa2 then (if x < 0xa1 then 0x00000047 else 0x000000f1) else if x < 0xa3 then 0x0000001a else 0x00000071)
      else if x < 0xa6 then (if x < 0xa5 then 0x0000001d else 0x00000029) else if x < 0xa7 then 0x000000c5 else 0x00000089)
      else if x < 0xac then (if x < 0xaa then (if x < 0xa9 then 0x0000006f else 0x000000b7) else if x < 0xab then 0x00000062 else 0x0000000e)
      else if x < 0xae then (if x < 0xad then 0x000000aa else 0x00000018) else if x < 0xaf then 0x000000be else 0x0000001b
    ) else if x < 0xc0 then (
      if x < 0xb8 then (if x < 0xb4 then (if x < 0xb2 then (if x < 0xb1 then 0x000000fc else 0x00000056) else if x < 0xb3 then 0x0000003e else 0x0000004b)
      else if x < 0xb6 then (if x < 0xb5 then 0x000000c6 else 0x000000d2) else if x < 0xb7 then 0x00000079 else 0x00000020)
      else if x < 0xbc then (if x < 0xba then (if x < 0xb9 then 0x0000009a else 0x000000db) else if x < 0xbb then 0x000000c0 else 0x000000fe)
      else if x < 0xbe then (if x < 0xbd then 0x00000078 else 0x000000cd) else if x < 0xbf then 0x0000005a else 0x000000f4
    ) else if x < 0xd0 then (
      if x < 0xc8 then (if x < 0xc4 then (if x < 0xc2 then (if x < 0xc1 then 0x0000001f else 0x000000dd) else if x < 0xc3 then 0x000000a8 else 0x00000033)
      else if x < 0xc6 then (if x < 0xc5 then 0x00000088 else 0x00000007) else if x < 0xc7 then 0x000000c7 else 0x00000031)
      else if x < 0xcc then (if x < 0xca then (if x < 0xc9 then 0x000000b1 else 0x00000012) else if x < 0xcb then 0x00000010 else 0x00000059)
      else if x < 0xce then (if x < 0xcd then 0x00000027 else 0x00000080) else if x < 0xcf then 0x000000ec else 0x0000005f
    ) else if x < 0xe0 then (
      if x < 0xd8 then (if x < 0xd4 then (if x < 0xd2 then (if x < 0xd1 then 0x00000060 else 0x00000051) else if x < 0xd3 then 0x0000007f else 0x000000a9)
      else if x < 0xd6 then (if x < 0xd5 then 0x00000019 else 0x000000b5) else if x < 0xd7 then 0x0000004a else 0x0000000d)
      else if x < 0xdc then (if x < 0xda then (if x < 0xd9 then 0x0000002d else 0x000000e5) else if x < 0xdb then 0x0000007a else 0x0000009f)
      else if x < 0xde then (if x < 0xdd then 0x00000093 else 0x000000c9) else if x < 0xdf then 0x0000009c else 0x000000ef
    ) else if x < 0xf0 then (
      if x < 0xe8 then (if x < 0xe4 then (if x < 0xe2 then (if x < 0xe1 then 0x000000a0 else 0x000000e0) else if x < 0xe3 then 0x0000003b else 0x0000004d)
      else if x < 0xe6 then (if x < 0xe5 then 0x000000ae else 0x0000002a) else if x < 0xe7 then 0x000000f5 else 0x000000b0)
      else if x < 0xec then (if x < 0xea then (if x < 0xe9 then 0x000000c8 else 0x000000eb) else if x < 0xeb then 0x000000bb else 0x0000003c)
      else if x < 0xee then (if x < 0xed then 0x00000083 else 0x00000053) else if x < 0xef then 0x00000099 else 0x00000061
    ) else (
      if x < 0xf8 then (if x < 0xf4 then (if x < 0xf2 then (if x < 0xf1 then 0x00000017 else 0x0000002b) else if x < 0xf3 then 0x00000004 else 0x0000007e)
      else if x < 0xf6 then (if x < 0xf5 then 0x000000ba else 0x00000077) else if x < 0xf7 then 0x000000d6 else 0x00000026)
      else if x < 0xfc then (if x < 0xfa then (if x < 0xf9 then 0x000000e1 else 0x00000069) else if x < 0xfb then 0x00000014 else 0x00000063)
      else if x < 0xfe then (if x < 0xfd then 0x00000055 else 0x00000021) else if x < 0xff then 0x0000000c else 0x0000007d
    )
  }

  function Il1(x: bv8): bv32 {
    if x < 0x10 then (
      if x < 0x08 then (if x < 0x04 then (if x < 0x02 then (if x < 0x01 then 0x00005200 else 0x00000900) else if x < 0x03 then 0x00006a00 else 0x0000d500)
      else if x < 0x06 then (if x < 0x05 then 0x00003000 else 0x00003600) else if x < 0x07 then 0x0000a500 else 0x00003800)
      else if x < 0x0c then (if x < 0x0a then (if x < 0x09 then 0x0000bf00 else 0x00004000) else if x < 0x0b then 0x0000a300 else 0x00009e00)
      else if x < 0x0e then (if x < 0x0d then 0x00008100 else 0x0000f300) else if x < 0x0f then 0x0000d700 else 0x0000fb00
    ) else if x < 0x20 then (
      if x < 0x18 then (if x < 0x14 then (if x < 0x12 then (if x < 0x11 then 0x00007c00 else 0x0000e300) else if x < 0x13 then 0x00003900 else 0x00008200)
      else if x < 0x16 then (if x < 0x15 then 0x00009b00 else 0x00002f00) else if x < 0x17 then 0x0000ff00 else 0x00008700)
      else if x < 0x1c then (if x < 0x1a then (if x < 0x19 then 0x00003400 else 0x00008e00) else if x < 0x1b then 0x00004300 else 0x00004400)
      else if x < 0x1e then (if x < 0x1d then 0x0000c400 else 0x0000de00) else if x < 0x1f then 0x0000e900 else 0x0000cb00
    ) else if x < 0x30 then (
      if x < 0x28 then (if x < 0x24 then (if x < 0x22 then (if x < 0x21 then 0x00005400 else 0x00007b00) else if x < 0x23 then 0x00009400 else 0x00003200)
      else if x < 0x26 then (if x < 0x25 then 0x0000a600 else 0x0000c200) else if x < 0x27 then 0x00002300 else 0x00003d00)
      else if x < 0x2c then (if x < 0x2a then (if x < 0x29 then 0x0000ee00 else 0x00004c00) else if x < 0x2b then 0x00009500 else 0x00000b00)
      else if x < 0x2e then (if x < 0x2d then 0x00004200 else 0x0000fa00) else if x < 0x2f then 0x0000c300 else 0x00004e00
    ) else if x < 0x40 then (
      if x < 0x38 then (if x < 0x34 then (if x < 0x32 then (if x < 0x31 then 0x00000800 else 0x00002e00) else if x < 0x33 then 0x0000a100 else 0x00006600)
      else if x < 0x36 then (if x < 0x35 then 0x00002800 else 0x0000d900) else if x < 0x37 then 0x00002400 else 0x0000b200)
      else if x < 0x3c then (if x < 0x3a then (if x < 0x39 then 0x00007600 else 0x00005b00) else if x < 0x3b then 0x0000a200 else 0x00004900)
      else if x < 0x3e then (if x < 0x3d then 0x00006d00 else 0x00008b00) else if x < 0x3f then 0x0000d100 else 0x00002500
    ) else if x < 0x50 then (
      if x < 0x48 then (if x < 0x44 then (if x < 0x42 then (if x < 0x41 then 0x00007200 else 0x0000f800) else if x < 0x43 then 0x0000f600 else 0x00006400)
      else if x < 0x46 then (if x < 0x45 then 0x00008600 else 0x00006800) else if x < 0x47 then 0x00009800 else 0x00001600)
      else if x < 0x4c then (if x < 0x4a then (if x < 0x49 then 0x0000d400 else 0x0000a400) else if x < 0x4b then 0x00005c00 else 0x0000cc00)
      else if x < 0x4e then (if x < 0x4d then 0x00005d00 else 0x00006500) else if x < 0x4f then 0x0000b600 else 0x00009200
    ) else if x < 0x60 then (
      if x < 0x58 then (if x < 0x54 then (if x < 0x52 then (if x < 0x51 then 0x00006c00 else 0x00007000) else if x < 0x53 then 0x00004800 else 0x00005000)
      else if x < 0x56 then (if x < 0x55 then 0x0000fd00 else 0x0000ed00) else if x < 0x57 then 0x0000b900 else 0x0000da00)
      else if x < 0x5c then (if x < 0x5a then (if x < 0x59 then 0x00005e00 else 0x00001500) else if x < 0x5b then 0x00004600 else 0x00005700)
      else if x < 0x5e then (if x < 0x5d then 0x0000a700 else 0x00008d00) else if x < 0x5f then 0x00009d00 else 0x00008400
    ) else if x < 0x70 then (
      if x < 0x68 then (if x < 0x64 then (if x < 0x62 then (if x < 0x61 then 0x00009000 else 0x0000d800) else if x < 0x63 then 0x0000ab00 else 0x00000000)
      else if x < 0x66 then (if x < 0x65 then 0x00008c00 else 0x0000bc00) else if x < 0x67 then 0x0000d300 else 0x00000a00)
      else if x < 0x6c then (if x < 0x6a then (if x < 0x69 then 0x0000f700 else 0x0000e400) else if x < 0x6b then 0x00005800 else 0x00000500)
      else if x < 0x6e then (if x < 0x6d then 0x0000b800 else 0x0000b300) else if x < 0x6f then 0x00004500 else 0x00000600
    ) else if x < 0x80 then (
      if x < 0x78 then (if x < 0x74 then (if x < 0x72 then (if x < 0x71 then 0x0000d000 else 0x00002c00) else if x < 0x73 then 0x00001e00 else 0x00008f00)
      else if x < 0x76 then (if x < 0x75 then 0x0000ca00 else 0x00003f00) else if x < 0x77 then 0x00000f00 else 0x00000200)
      else if x < 0x7c then (if x < 0x7a then (if x < 0x79 then 0x0000c100 else 0x0000af00) else if x < 0x7b then 0x0000bd00 else 0x00000300)
      else if x < 0x7e then (if x < 0x7d then 0x00000100 else 0x00001300) else if x < 0x7f then 0x00008a00 else 0x00006b00
    ) else if x < 0x90 then (
      if x < 0x88 then (if x < 0x84 then (if x < 0x82 then (if x < 0x81 then 0x00003a00 else 0x00009100) else if x < 0x83 then 0x00001100 else 0x00004100)
      else if x < 0x86 then (if x < 0x85 then 0x00004f00 else 0x00006700) else if x < 0x87 then 0x0000dc00 else 0x0000ea00)
      else if x < 0x8c then (if x < 0x8a then (if x < 0x89 then 0x00009700 else 0x0000f200) else if x < 0x8b then 0x0000cf00 else 0x0000ce00)
      else if x < 0x8e then (if x < 0x8d then 0x0000f000 else 0x0000b400) else if x < 0x8f then 0x0000e600 else 0x00007300
    ) else if x < 0xa0 then (
      if x < 0x98 then (if x < 0x94 then (if x < 0x92 then (if x < 0x91 then 0x00009600 else 0x0000ac00) else if x < 0x93 then 0x00007400 else 0x00002200)
      else if x < 0x96 then (if x < 0x95 then 0x0000e700 else 0x0000ad00) else if x < 0x97 then 0x00003500 else 0x00008500)
      else if x < 0x9c then (if x < 0x9a then (if x < 0x99 then 0x0000e200 else 0x0000f900) else if x < 0x9b then 0x00003700 else 0x0000e800)
      else if x < 0x9e then (if x < 0x9d then 0x00001c00 else 0x00007500) else if x < 0x9f then 0x0000df00 else 0x00006e00
    ) else if x < 0xb0 then (
      if x < 0xa8 then (if x < 0xa4 then (if x < 0xa2 then (if x < 0xa1 then 0x00004700 else 0x0000f100) else if x < 0xa3 then 0x00001a00 else 0x00007100)
      else if x < 0xa6 then (if x < 0xa5 then 0x00001d00 else 0x00002900) else if x < 0xa7 then 0x0000c500 else 0x00008900)
      else if x < 0xac then (if x < 0xaa then (if x < 0xa9 then 0x00006f00 else 0x0000b700) else if x < 0xab then 0x00006200 else 0x00000e00)
      else if x < 0xae then (if x < 0xad then 0x0000aa00 else 0x00001800) else if x < 0xaf then 0x0000be00 else 0x00001b00
    ) else if x < 0xc0 then (
      if x < 0xb8 then (if x < 0xb4 then (if x < 0xb2 then (if x < 0xb1 then 0x0000fc00 else 0x00005600) else if x < 0xb3 then 0x00003e00 else 0x00004b00)
      else if x < 0xb6 then (if x < 0xb5 then 0x0000c600 else 0x0000d200) else if x < 0xb7 then 0x00007900 else 0x00002000)
      else if x < 0xbc then (if x < 0xba then (if x < 0xb9 then 0x00009a00 else 0x0000db00) else if x < 0xbb then 0x0000c000 else 0x0000fe00)
      else if x < 0xbe then (if x < 0xbd then 0x00007800 else 0x0000cd00) else if x < 0xbf then 0x00005a00 else 0x0000f400
    ) else if x < 0xd0 then (
      if x < 0xc8 then (if x < 0xc4 then (if x < 0xc2 then (if x < 0xc1 then 0x00001f00 else 0x0000dd00) else if x < 0xc3 then 0x0000a800 else 0x00003300)
      else if x < 0xc6 then (if x < 0xc5 then 0x00008800 else 0x00000700) else if x < 0xc7 then 0x0000c700 else 0x00003100)
      else if x < 0xcc then (if x < 0xca then (if x < 0xc9 then 0x0000b100 else 0x00001200) else if x < 0xcb then 0x00001000 else 0x00005900)
      else if x < 0xce then (if x < 0xcd then 0x00002700 else 0x00008000) else if x < 0xcf then 0x0000ec00 else 0x00005f00
    ) else if x < 0xe0 then (
      if x < 0xd8 then (if x < 0xd4 then (if x < 0xd2 then (if x < 0xd1 then 0x00006000 else 0x00005100) else if x < 0xd3 then 0x00007f00 else 0x0000a900)
      else if x < 0xd6 then (if x < 0xd5 then 0x00001900 else 0x0000b500) else if x < 0xd7 then 0x00004a00 else 0x00000d00)
      else if x < 0xdc then (if x < 0xda then (if x < 0xd9 then 0x00002d00 else 0x0000e500) else if x < 0xdb then 0x00007a00 else 0x00009f00)
      else if x < 0xde then (if x < 0xdd then 0x00009300 else 0x0000c900) else if x < 0xdf then 0x00009c00 else 0x0000ef00
    ) else if x < 0xf0 then (
      if x < 0xe8 then (if x < 0xe4 then (if x < 0xe2 then (if x < 0xe1 then 0x0000a000 else 0x0000e000) else if x < 0xe3 then 0x00003b00 else 0x00004d00)
      else if x < 0xe6 then (if x < 0xe5 then 0x0000ae00 else 0x00002a00) else if x < 0xe7 then 0x0000f500 else 0x0000b000)
      else if x < 0xec then (if x < 0xea then (if x < 0xe9 then 0x0000c800 else 0x0000eb00) else if x < 0xeb then 0x0000bb00 else 0x00003c00)
      else if x < 0xee then (if x < 0xed then 0x00008300 else 0x00005300) else if x < 0xef then 0x00009900 else 0x00006100
    ) else (
      if x < 0xf8 then (if x < 0xf4 then (if x < 0xf2 then (if x < 0xf1 then 0x00001700 else 0x00002b00) else if x < 0xf3 then 0x00000400 else 0x00007e00)
      else if x < 0xf6 then (if x < 0xf5 then 0x0000ba00 else 0x00007700) else if x < 0xf7 then 0x0000d600 else 0x00002600)
      else if x < 0xfc then (if x < 0xfa then (if x < 0xf9 then 0x0000e100 else 0x00006900) else if x < 0xfb then 0x00001400 else 0x00006300)
      else if x < 0xfe then (if x < 0xfd then 0x00005500 else 0x00002100) else if x < 0xff then 0x00000c00 else 0x00007d00
    )
  }

  function Il2(x: bv8): bv32 {
    if x < 0x10 then (
      if x < 0x08 then (if x < 0x04 then (if x < 0x02 then (if x < 0x01 then 0x00520000 else 0x00090000) else if x < 0x03 then 0x006a0000 else 0x00d50000)
      else if x < 0x06 then (if x < 0x05 then 0x00300000 else 0x00360000) else if x < 0x07 then 0x00a50000 else 0x00380000)
      else if x < 0x0c then (if x < 0x0a then (if x < 0x09 then 0x00bf0000 else 0x00400000) else if x < 0x0b then 0x00a30000 else 0x009e0000)
      else if x < 0x0e then (if x < 0x0d then 0x00810000 else 0x00f30000) else if x < 0x0f then 0x00d70000 else 0x00fb0000
    ) else if x < 0x20 then (
      if x < 0x18 then (if x < 0x14 then (if x < 0x12 then (if x < 0x11 then 0x007c0000 else 0x00e30000) else if x < 0x13 then 0x00390000 else 0x00820000)
      else if x < 0x16 then (if x < 0x15 then 0x009b0000 else 0x002f0000) else if x < 0x17 then 0x00ff0000 else 0x00870000)
      else if x < 0x1c then (if x < 0x1a then (if x < 0x19 then 0x00340000 else 0x008e0000) else if x < 0x1b then 0x00430000 else 0x00440000)
      else if x < 0x1e then (if x < 0x1d then 0x00c40000 else 0x00de0000) else if x < 0x1f then 0x00e90000 else 0x00cb0000
    ) else if x < 0x30 then (
      if x < 0x28 then (if x < 0x24 then (if x < 0x22 then (if x < 0x21 then 0x00540000 else 0x007b0000) else if x < 0x23 then 0x00940000 else 0x00320000)
      else if x < 0x26 then (if x < 0x25 then 0x00a60000 else 0x00c20000) else if x < 0x27 then 0x00230000 else 0x003d0000)
      else if x < 0x2c then (if x < 0x2a then (if x < 0x29 then 0x00ee0000 else 0x004c0000) else if x < 0x2b then 0x00950000 else 0x000b0000)
      else if x < 0x2e then (if x < 0x2d then 0x00420000 else 0x00fa0000) else if x < 0x2f then 0x00c30000 else 0x004e0000
    ) else if x < 0x40 then (
      if x < 0x38 then (if x < 0x34 then (if x < 0x32 then (if x < 0x31 then 0x00080000 else 0x002e0000) else if x < 0x33 then 0x00a10000 else 0x00660000)
      else if x < 0x36 then (if x < 0x35 then 0x00280000 else 0x00d90000) else if x < 0x37 then 0x00240000 else 0x00b20000)
      else if x < 0x3c then (if x < 0x3a then (if x < 0x39 then 0x00760000 else 0x005b0000) else if x < 0x3b then 0x00a20000 else 0x00490000)
      else if x < 0x3e then (if x < 0x3d then 0x006d0000 else 0x008b0000) else if x < 0x3f then 0x00d10000 else 0x00250000
    ) else if x < 0x50 then (
      if x < 0x48 then (if x < 0x44 then (if x < 0x42 then (if x < 0x41 then 0x00720000 else 0x00f80000) else if x < 0x43 then 0x00f60000 else 0x00640000)
      else if x < 0x46 then (if x < 0x45 then 0x00860000 else 0x00680000) else if x < 0x47 then 0x00980000 else 0x00160000)
      else if x < 0x4c then (if x < 0x4a then (if x < 0x49 then 0x00d40000 else 0x00a40000) else if x < 0x4b then 0x005c0000 else 0x00cc0000)
      else if x < 0x4e then (if x < 0x4d then 0x005d0000 else 0x00650000) else if x < 0x4f then 0x00b60000 else 0x00920000
    ) else if x < 0x60 then (
      if x < 0x58 then (if x < 0x54 then (if x < 0x52 then (if x < 0x51 then 0x006c0000 else 0x00700000) else if x < 0x53 then 0x00480000 else 0x00500000)
      else if x < 0x56 then (if x < 0x55 then 0x00fd0000 else 0x00ed0000) else if x < 0x57 then 0x00b90000 else 0x00da0000)
      else if x < 0x5c then (if x < 0x5a then (if x < 0x59 then 0x005e0000 else 0x00150000) else if x < 0x5b then 0x00460000 else 0x00570000)
      else if x < 0x5e then (if x < 0x5d then 0x00a70000 else 0x008d0000) else if x < 0x5f then 0x009d0000 else 0x00840000
    ) else if x < 0x70 then (
      if x < 0x68 then (if x < 0x64 then (if x < 0x62 then (if x < 0x61 then 0x00900000 else 0x00d80000) else if x < 0x63 then 0x00ab0000 else 0x00000000)
      else if x < 0x66 then (if x < 0x65 then 0x008c0000 else 0x00bc0000) else if x < 0x67 then 0x00d30000 else 0x000a0000)
      else if x < 0x6c then (if x < 0x6a then (if x < 0x69 then 0x00f70000 else 0x00e40000) else if x < 0x6b then 0x00580000 else 0x00050000)
      else if x < 0x6e then (if x < 0x6d then 0x00b80000 else 0x00b30000) else if x < 0x6f then 0x00450000 else 0x00060000
    ) else if x < 0x80 then (
      if x < 0x78 then (if x < 0x74 then (if x < 0x72 then (if x < 0x71 then 0x00d00000 else 0x002c0000) else if x < 0x73 then 0x001e0000 else 0x008f0000)
      else if x < 0x76 then (if x < 0x75 then 0x00ca0000 else 0x003f0000) else if x < 0x77 then 0x000f0000 else 0x00020000)
      else if x < 0x7c then (if x < 0x7a then (if x < 0x79 then 0x00c10000 else 0x00af0000) else if x < 0x7b then 0x00bd0000 else 0x00030000)
      else if x < 0x7e then (if x < 0x7d then 0x00010000 else 0x00130000) else if x < 0x7f then 0x008a0000 else 0x006b0000
    ) else if x < 0x90 then (
      if x < 0x88 then (if x < 0x84 then (if x < 0x82 then (if x < 0x81 then 0x003a0000 else 0x00910000) else if x < 0x83 then 0x00110000 else 0x00410000)
      else if x < 0x86 then (if x < 0x85 then 0x004f0000 else 0x00670000) else if x < 0x87 then 0x00dc0000 else 0x00ea0000)
      else if x < 0x8c then (if x < 0x8a then (if x < 0x89 then 0x00970000 else 0x00f20000) else if x < 0x8b then 0x00cf0000 else 0x00ce0000)
      else if x < 0x8e then (if x < 0x8d then 0x00f00000 else 0x00b40000) else if x < 0x8f then 0x00e60000 else 0x00730000
    ) else if x < 0xa0 then (
      if x < 0x98 then (if x < 0x94 then (if x < 0x92 then (if x < 0x91 then 0x00960000 else 0x00ac0000) else if x < 0x93 then 0x00740000 else 0x00220000)
      else if x < 0x96 then (if x < 0x95 then 0x00e70000 else 0x00ad0000) else if x < 0x97 then 0x00350000 else 0x00850000)
      else if x < 0x9c then (if x < 0x9a then (if x < 0x99 then 0x00e20000 else 0x00f90000) else if x < 0x9b then 0x00370000 else 0x00e80000)
      else if x < 0x9e then (if x < 0x9d then 0x001c0000 else 0x00750000) else if x < 0x9f then 0x00df0000 else 0x006e0000
    ) else if x < 0xb0 then (
      if x < 0xa8 then (if x < 0xa4 then (if x < 0xa2 then (if x < 0xa1 then 0x00470000 else 0x00f10000) else if x < 0xa3 then 0x001a0000 else 0x00710000)
      else if x < 0xa6 then (if x < 0xa5 then 0x001d0000 else 0x00290000) else if x < 0xa7 then 0x00c50000 else 0x00890000)
      else if x < 0xac then (if x < 0xaa then (if x < 0xa9 then 0x006f0000 else 0x00b70000) else if x < 0xab then 0x00620000 else 0x000e0000)
      else if x < 0xae then (if x < 0xad then 0x00aa0000 else 0x00180000) else if x < 0xaf then 0x00be0000 else 0x001b0000
    ) else if x < 0xc0 then (
      if x < 0xb8 then (if x < 0xb4 then (if x < 0xb2 then (if x < 0xb1 then 0x00fc0000 else 0x00560000) else if x < 0xb3 then 0x003e0000 else 0x004b0000)
      else if x < 0xb6 then (if x < 0xb5 then 0x00c60000 else 0x00d20000) else if x < 0xb7 then 0x00790000 else 0x00200000)
      else if x < 0xbc then (if x < 0xba then (if x < 0xb9 then 0x009a0000 else 0x00db0000) else if x < 0xbb then 0x00c00000 else 0x00fe0000)
      else if x < 0xbe then (if x < 0xbd then 0x00780000 else 0x00cd0000) else if x < 0xbf then 0x005a0000 else 0x00f40000
    ) else if x < 0xd0 then (
      if x < 0xc8 then (if x < 0xc4 then (if x < 0xc2 then (if x < 0xc1 then 0x001f0000 else 0x00dd0000) else if x < 0xc3 then 0x00a80000 else 0x00330000)
      else if x < 0xc6 then (if x < 0xc5 then 0x00880000 else 0x00070000) else if x < 0xc7 then 0x00c70000 else 0x00310000)
      else if x < 0xcc then (if x < 0xca then (if x < 0xc9 then 0x00b10000 else 0x00120000) else if x < 0xcb then 0x00100000 else 0x00590000)
      else if x < 0xce then (if x < 0xcd then 0x00270000 else 0x00800000) else if x < 0xcf then 0x00ec0000 else 0x005f0000
    ) else if x < 0xe0 then (
      if x < 0xd8 then (if x < 0xd4 then (if x < 0xd2 then (if x < 0xd1 then 0x00600000 else 0x00510000) else if x < 0xd3 then 0x007f0000 else 0x00a90000)
      else if x < 0xd6 then (if x < 0xd5 then 0x00190000 else 0x00b50000) else if x < 0xd7 then 0x004a0000 else 0x000d0000)
      else if x < 0xdc then (if x < 0xda then (if x < 0xd9 then 0x002d0000 else 0x00e50000) else if x < 0xdb then 0x007a0000 else 0x009f0000)
      else if x < 0xde then (if x < 0xdd then 0x00930000 else 0x00c90000) else if x < 0xdf then 0x009c0000 else 0x00ef0000
    ) else if x < 0xf0 then (
      if x < 0xe8 then (if x < 0xe4 then (if x < 0xe2 then (if x < 0xe1 then 0x00a00000 else 0x00e00000) else if x < 0xe3 then 0x003b0000 else 0x004d0000)
      else if x < 0xe6 then (if x < 0xe5 then 0x00ae0000 else 0x002a0000) else if x < 0xe7 then 0x00f50000 else 0x00b00000)
      else if x < 0xec then (if x < 0xea then (if x < 0xe9 then 0x00c80000 else 0x00eb0000) else if x < 0xeb then 0x00bb0000 else 0x003c0000)
      else if x < 0xee then (if x < 0xed then 0x00830000 else 0x00530000) else if x < 0xef then 0x00990000 else 0x00610000
    ) else (
      if x < 0xf8 then (if x < 0xf4 then (if x < 0xf2 then (if x < 0xf1 then 0x00170000 else 0x002b0000) else if x < 0xf3 then 0x00040000 else 0x007e0000)
      else if x < 0xf6 then (if x < 0xf5 then 0x00ba0000 else 0x00770000) else if x < 0xf7 then 0x00d60000 else 0x00260000)
      else if x < 0xfc then (if x < 0xfa then (if x < 0xf9 then 0x00e10000 else 0x00690000) else if x < 0xfb then 0x00140000 else 0x00630000)
      else if x < 0xfe then (if x < 0xfd then 0x00550000 else 0x00210000) else if x < 0xff then 0x000c0000 else 0x007d0000
    )
  }

  function Il3(x: bv8): bv32 {
    if x < 0x10 then (
      if x < 0x08 then (if x < 0x04 then (if x < 0x02 then (if x < 0x01 then 0x52000000 else 0x09000000) else if x < 0x03 then 0x6a000000 else 0xd5000000)
      else if x < 0x06 then (if x < 0x05 then 0x30000000 else 0x36000000) else if x < 0x07 then 0xa5000000 else 0x38000000)
      else if x < 0x0c then (if x < 0x0a then (if x < 0x09 then 0xbf000000 else 0x40000000) else if x < 0x0b then 0xa3000000 else 0x9e000000)
      else if x < 0x0e then (if x < 0x0d then 0x81000000 else 0xf3000000) else if x < 0x0f then 0xd7000000 else 0xfb000000
    ) else if x < 0x20 then (
      if x < 0x18 then (if x < 0x14 then (if x < 0x12 then (if x < 0x11 then 0x7c000000 else 0xe3000000) else if x < 0x13 then 0x39000000 else 0x82000000)
      else if x < 0x16 then (if x < 0x15 then 0x9b000000 else 0x2f000000) else if x < 0x17 then 0xff000000 else 0x87000000)
      else if x < 0x1c then (if x < 0x1a then (if x < 0x19 then 0x34000000 else 0x8e000000) else if x < 0x1b then 0x43000000 else 0x44000000)
      else if x < 0x1e then (if x < 0x1d then 0xc4000000 else 0xde000000) else if x < 0x1f then 0xe9000000 else 0xcb000000
    ) else if x < 0x30 then (
      if x < 0x28 then (if x < 0x24 then (if x < 0x22 then (if x < 0x21 then 0x54000000 else 0x7b000000) else if x < 0x23 then 0x94000000 else 0x32000000)
      else if x < 0x26 then (if x < 0x25 then 0xa6000000 else 0xc2000000) else if x < 0x27 then 0x23000000 else 0x3d000000)
      else if x < 0x2c then (if x < 0x2a then (if x < 0x29 then 0xee000000 else 0x4c000000) else if x < 0x2b then 0x95000000 else 0x0b000000)
      else if x < 0x2e then (if x < 0x2d then 0x42000000 else 0xfa000000) else if x < 0x2f then 0xc3000000 else 0x4e000000
    ) else if x < 0x40 then (
      if x < 0x38 then (if x < 0x34 then (if x < 0x32 then (if x < 0x31 then 0x08000000 else 0x2e000000) else if x < 0x33 then 0xa1000000 else 0x66000000)
      else if x < 0x36 then (if x < 0x35 then 0x28000000 else 0xd9000000) else if x < 0x37 then 0x24000000 else 0xb2000000)
      else if x < 0x3c then (if x < 0x3a then (if x < 0x39 then 0x76000000 else 0x5b000000) else if x < 0x3b then 0xa2000000 else 0x49000000)
      else if x < 0x3e then (if x < 0x3d then 0x6d000000 else 0x8b000000) else if x < 0x3f then 0xd1000000 else 0x25000000
    ) else if x < 0x50 then (
      if x < 0x48 then (if x < 0x44 then (if x < 0x42 then (if x < 0x41 then 0x72000000 else 0xf8000000) else if x < 0x43 then 0xf6000000 else 0x64000000)
      else if x < 0x46 then (if x < 0x45 then 0x86000000 else 0x68000000) else if x < 0x47 then 0x98000000 else 0x16000000)
      else if x < 0x4c then (if x < 0x4a then (if x < 0x49 then 0xd4000000 else 0xa4000000) else if x < 0x4b then 0x5c000000 else 0xcc000000)
      else if x < 0x4e then (if x < 0x4d then 0x5d000000 else 0x65000000) else if x < 0x4f then 0xb6000000 else 0x92000000
    ) else if x < 0x60 then (
      if x < 0x58 then (if x < 0x54 then (if x < 0x52 then (if x < 0x51 then 0x6c000000 else 0x70000000) else if x < 0x53 then 0x48000000 else 0x50000000)
      else if x < 0x56 then (if x < 0x55 then 0xfd000000 else 0xed000000) else if x < 0x57 then 0xb9000000 else 0xda000000)
      else if x < 0x5c then (if x < 0x5a then (if x < 0x59 then 0x5e000000 else 0x15000000) else if x < 0x5b then 0x46000000 else 0x57000000)
      else if x < 0x5e then (if x < 0x5d then 0xa7000000 else 0x8d000000) else if x < 0x5f then 0x9d000000 else 0x84000000
    ) else if x < 0x70 then (
      if x < 0x68 then (if x < 0x64 then (if x < 0x62 then (if x < 0x61 then 0x90000000 else 0xd8000000) else if x < 0x63 then 0xab000000 else 0x00000000)
      else if x < 0x66 then (if x < 0x65 then 0x8c000000 else 0xbc000000) else if x < 0x67 then 0xd3000000 else 0x0a000000)
      else if x < 0x6c then (if x < 0x6a then (if x < 0x69 then 0xf7000000 else 0xe4000000) else if x < 0x6b then 0x58000000 else 0x05000000)
      else if x < 0x6e then (if x < 0x6d then 0xb8000000 else 0xb3000000) else if x < 0x6f then 0x45000000 else 0x06000000
    ) else if x < 0x80 then (
      if x < 0x78 then (if x < 0x74 then (if x < 0x72 then (if x < 0x71 then 0xd0000000 else 0x2c000000) else if x < 0x73 then 0x1e000000 else 0x8f000000)
      else if x < 0x76 then (if x < 0x75 then 0xca000000 else 0x3f000000) else if x < 0x77 then 0x0f000000 else 0x02000000)
      else if x < 0x7c then (if x < 0x7a then (if x < 0x79 then 0xc1000000 else 0xaf000000) else if x < 0x7b then 0xbd000000 else 0x03000000)
      else if x < 0x7e then (if x < 0x7d then 0x01000000 else 0x13000000) else if x < 0x7f then 0x8a000000 else 0x6b000000
    ) else if x < 0x90 then (
      if x < 0x88 then (if x < 0x84 then (if x < 0x82 then (if x < 0x81 then 0x3a000000 else 0x91000000) else if x < 0x83 then 0x11000000 else 0x41000000)
      else if x < 0x86 then (if x < 0x85 then 0x4f000000 else 0x67000000) else if x < 0x87 then 0xdc000000 else 0xea000000)
      else if x < 0x8c then (if x < 0x8a then (if x < 0x89 then 0x97000000 else 0xf2000000) else if x < 0x8b then 0xcf000000 else 0xce000000)
      else if x < 0x8e then (if x < 0x8d then 0xf0000000 else 0xb4000000) else if x < 0x8f then 0xe6000000 else 0x73000000
    ) else if x < 0xa0 then (
      if x < 0x98 then (if x < 0x94 then (if x < 0x92 then (if x < 0x91 then 0x96000000 else 0xac000000) else if x < 0x93 then 0x74000000 else 0x22000000)
      else if x < 0x96 then (if x < 0x95 then 0xe7000000 else 0xad000000) else if x < 0x97 then 0x35000000 else 0x85000000)
      else if x < 0x9c then (if x < 0x9a then (if x < 0x99 then 0xe2000000 else 0xf9000000) else if x < 0x9b then 0x37000000 else 0xe8000000)
      else if x < 0x9e then (if x < 0x9d then 0x1c000000 else 0x75000000) else if x < 0x9f then 0xdf000000 else 0x6e000000
    ) else if x < 0xb0 then (
      if x < 0xa8 then (if x < 0xa4 then (if x < 0xa2 then (if x < 0xa1 then 0x47000000 else 0xf1000000) else if x < 0xa3 then 0x1a000000 else 0x71000000)
      else if x < 0xa6 then (if x < 0xa5 then 0x1d000000 else 0x29000000) else if x < 0xa7 then 0xc5000000 else 0x89000000)
      else if x < 0xac then (if x < 0xaa then (if x < 0xa9 then 0x6f000000 else 0xb7000000) else if x < 0xab then 0x62000000 else 0x0e000000)
      else if x < 0xae then (if x < 0xad then 0xaa000000 else 0x18000000) else if x < 0xaf then 0xbe000000 else 0x1b000000
    ) else if x < 0xc0 then (
      if x < 0xb8 then (if x < 0xb4 then (if x < 0xb2 then (if x < 0xb1 then 0xfc000000 else 0x56000000) else if x < 0xb3 then 0x3e000000 else 0x4b000000)
      else if x < 0xb6 then (if x < 0xb5 then 0xc6000000 else 0xd2000000) else if x < 0xb7 then 0x79000000 else 0x20000000)
      else if x < 0xbc then (if x < 0xba then (if x < 0xb9 then 0x9a000000 else 0xdb000000) else if x < 0xbb then 0xc0000000 else 0xfe000000)
      else if x < 0xbe then (if x < 0xbd then 0x78000000 else 0xcd000000) else if x < 0xbf then 0x5a000000 else 0xf4000000
    ) else if x < 0xd0 then (
      if x < 0xc8 then (if x < 0xc4 then (if x < 0xc2 then (if x < 0xc1 then 0x1f000000 else 0xdd000000) else if x < 0xc3 then 0xa8000000 else 0x33000000)
      else if x < 0xc6 then (if x < 0xc5 then 0x88000000 else 0x07000000) else if x < 0xc7 then 0xc7000000 else 0x31000000)
      else if x < 0xcc then (if x < 0xca then (if x < 0xc9 then 0xb1000000 else 0x12000000) else if x < 0xcb then 0x10000000 else 0x59000000)
      else if x < 0xce then (if x < 0xcd then 0x27000000 else 0x80000000) else if x < 0xcf then 0xec000000 else 0x5f000000
    ) else if x < 0xe0 then (
      if x < 0xd8 then (if x < 0xd4 then (if x < 0xd2 then (if x < 0xd1 then 0x60000000 else 0x51000000) else if x < 0xd3 then 0x7f000000 else 0xa9000000)
      else if x < 0xd6 then (if x < 0xd5 then 0x19000000 else 0xb5000000) else if x < 0xd7 then 0x4a000000 else 0x0d000000)
      else if x < 0xdc then (if x < 0xda then (if x < 0xd9 then 0x2d000000 else 0xe5000000) else if x < 0xdb then 0x7a000000 else 0x9f000000)
      else if x < 0xde then (if x < 0xdd then 0x93000000 else 0xc9000000) else if x < 0xdf then 0x9c000000 else 0xef000000
    ) else if x < 0xf0 then (
      if x < 0xe8 then (if x < 0xe4 then (if x < 0xe2 then (if x < 0xe1 then 0xa0000000 else 0xe0000000) else if x < 0xe3 then 0x3b000000 else 0x4d000000)
      else if x < 0xe6 then (if x < 0xe5 then 0xae000000 else 0x2a000000) else if x < 0xe7 then 0xf5000000 else 0xb0000000)
      else if x < 0xec then (if x < 0xea then (if x < 0xe9 then 0xc8000000 else 0xeb000000) else if x < 0xeb then 0xbb000000 else 0x3c000000)
      else if x < 0xee then (if x < 0xed then 0x83000000 else 0x53000000) else if x < 0xef then 0x99000000 else 0x61000000
    ) else (
      if x < 0xf8 then (if x < 0xf4 then (if x < 0xf2 then (if x < 0xf1 then 0x17000000 else 0x2b000000) else if x < 0xf3 then 0x04000000 else 0x7e000000)
      else if x < 0xf6 then (if x < 0xf5 then 0xba000000 else 0x77000000) else if x < 0xf7 then 0xd6000000 else 0x26000000)
      else if x < 0xfc then (if x < 0xfa then (if x < 0xf9 then 0xe1000000 else 0x69000000) else if x < 0xfb then 0x14000000 else 0x63000000)
      else if x < 0xfe then (if x < 0xfd then 0x55000000 else 0x21000000) else if x < 0xff then 0x0c000000 else 0x7d000000
    )
  }
}
