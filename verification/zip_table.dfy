/** The ZIP_TO_ZONE table of the backend: 891 delivery ZIP codes of Georgia and its borders,
    each mapped to a billing zone letter.

    Every key of the source table is a string of five decimal digits whose first digit is
    '3', so a key is identified by the number it spells (see Text.DigitsValueInjective);
    the table is written here keyed by that number, split by the first three digits of the
    ZIP so that each part stays small enough to reason about. Entries are copied in the
    order of the source. */
module ZipTable {
  import opened Wrappers

  /** The zone the table maps the ZIP spelled by `n` to, if any. */
  function ZoneOfZip(n: int): (z: Option<char>)
    ensures z.Some? ==> 10000 <= n <= 99999 && 'A' <= z.value <= 'L'
  {
    match n / 100
    case 300 => Zip300(n)
    case 301 => Zip301(n)
    case 302 => Zip302(n)
    case 303 => Zip303(n)
    case 304 => Zip304(n)
    case 305 => Zip305(n)
    case 306 => Zip306(n)
    case 307 => Zip307(n)
    case 308 => Zip308(n)
    case 309 => Zip309(n)
    case 310 => Zip310(n)
    case 311 => Zip311(n)
    case 312 => Zip312(n)
    case 313 => Zip313(n)
    case 314 => Zip314(n)
    case 315 => Zip315(n)
    case 316 => Zip316(n)
    case 317 => Zip317(n)
    case 318 => Zip318(n)
    case 362 => Zip362(n)
    case 368 => Zip368(n)
    case 399 => Zip399(n)
    case _ => None
  }

  function Zip300(n: int): (z: Option<char>)
    ensures z.Some? ==> 30000 <= n <= 30099 && 'A' <= z.value <= 'L'
  {
    match n
    case 30002 => Some('C')
    case 30003 => Some('E')
    case 30004 => Some('F')
    case 30005 => Some('F')
    case 30006 => Some('D')
    case 30007 => Some('D')
    case 30008 => Some('C')
    case 30009 => Some('E')
    case 30010 => Some('E')
    case 30011 => Some('H')
    case 30012 => Some('E')
    case 30013 => Some('E')
    case 30014 => Some('G')
    case 30015 => Some('F')
    case 30016 => Some('F')
    case 30017 => Some('F')
    case 30018 => Some('G')
    case 30019 => Some('G')
    case 30021 => Some('C')
    case 30022 => Some('E')
    case 30023 => Some('E')
    case 30024 => Some('F')
    case 30025 => Some('H')
    case 30026 => Some('E')
    case 30028 => Some('H')
    case 30029 => Some('E')
    case 30030 => Some('C')
    case 30031 => Some('C')
    case 30032 => Some('C')
    case 30033 => Some('C')
    case 30034 => Some('C')
    case 30035 => Some('C')
    case 30036 => Some('C')
    case 30037 => Some('C')
    case 30038 => Some('D')
    case 30039 => Some('E')
    case 30040 => Some('G')
    case 30041 => Some('H')
    case 30042 => Some('F')
    case 30043 => Some('F')
    case 30044 => Some('E')
    case 30045 => Some('F')
    case 30046 => Some('F')
    case 30047 => Some('E')
    case 30048 => Some('E')
    case 30049 => Some('F')
    case 30052 => Some('F')
    case 30054 => Some('F')
    case 30055 => Some('H')
    case 30056 => Some('I')
    case 30058 => Some('D')
    case 30060 => Some('D')
    case 30061 => Some('D')
    case 30062 => Some('D')
    case 30063 => Some('D')
    case 30064 => Some('D')
    case 30065 => Some('D')
    case 30066 => Some('E')
    case 30067 => Some('D')
    case 30068 => Some('D')
    case 30069 => Some('C')
    case 30070 => Some('F')
    case 30071 => Some('E')
    case 30072 => Some('C')
    case 30074 => Some('D')
    case 30075 => Some('E')
    case 30076 => Some('E')
    case 30077 => Some('E')
    case 30078 => Some('E')
    case 30079 => Some('C')
    case 30080 => Some('C')
    case 30081 => Some('C')
    case 30082 => Some('C')
    case 30083 => Some('C')
    case 30084 => Some('D')
    case 30085 => Some('D')
    case 30086 => Some('D')
    case 30087 => Some('D')
    case 30088 => Some('C')
    case 30090 => Some('D')
    case 30091 => Some('D')
    case 30092 => Some('E')
    case 30093 => Some('D')
    case 30094 => Some('D')
    case 30095 => Some('E')
    case 30096 => Some('E')
    case 30097 => Some('F')
    case 30098 => Some('E')
    case 30099 => Some('E')
    case _ => None
  }

  function Zip301(n: int): (z: Option<char>)
    ensures z.Some? ==> 30100 <= n <= 30199 && 'A' <= z.value <= 'L'
  {
    match n
    case 30101 => Some('E')
    case 30102 => Some('F')
    case 30103 => Some('J')
    case 30104 => Some('H')
    case 30105 => Some('L')
    case 30106 => Some('C')
    case 30107 => Some('H')
    case 30108 => Some('H')
    case 30109 => Some('G')
    case 30110 => Some('G')
    case 30111 => Some('C')
    case 30112 => Some('F')
    case 30113 => Some('E')
    case 30114 => Some('F')
    case 30115 => Some('F')
    case 30116 => Some('H')
    case 30117 => Some('H')
    case 30118 => Some('J')
    case 30119 => Some('J')
    case 30120 => Some('C')
    case 30121 => Some('K')
    case 30122 => Some('D')
    case 30124 => Some('G')
    case 30125 => Some('J')
    case 30126 => Some('D')
    case 30127 => Some('E')
    case 30132 => Some('H')
    case 30133 => Some('H')
    case 30134 => Some('I')
    case 30135 => Some('J')
    case 30137 => Some('G')
    case 30138 => Some('F')
    case 30139 => Some('H')
    case 30140 => Some('I')
    case 30141 => Some('I')
    case 30142 => Some('J')
    case 30143 => Some('I')
    case 30144 => Some('I')
    case 30145 => Some('I')
    case 30147 => Some('I')
    case 30148 => Some('I')
    case 30149 => Some('I')
    case 30150 => Some('K')
    case 30152 => Some('G')
    case 30153 => Some('H')
    case 30154 => Some('I')
    case 30156 => Some('I')
    case 30157 => Some('I')
    case 30160 => Some('J')
    case 30161 => Some('I')
    case 30162 => Some('J')
    case 30165 => Some('K')
    case 30168 => Some('E')
    case 30169 => Some('G')
    case 30170 => Some('I')
    case 30171 => Some('I')
    case 30172 => Some('I')
    case 30173 => Some('F')
    case 30175 => Some('J')
    case 30176 => Some('I')
    case 30177 => Some('J')
    case 30178 => Some('J')
    case 30179 => Some('K')
    case 30180 => Some('H')
    case 30182 => Some('G')
    case 30183 => Some('J')
    case 30184 => Some('I')
    case 30185 => Some('K')
    case 30187 => Some('J')
    case 30188 => Some('H')
    case 30189 => Some('G')
    case _ => None
  }

  function Zip302(n: int): (z: Option<char>)
    ensures z.Some? ==> 30200 <= n <= 30299 && 'A' <= z.value <= 'L'
  {
    match n
    case 30204 => Some('G')
    case 30205 => Some('G')
    case 30206 => Some('H')
    case 30212 => Some('G')
    case 30213 => Some('H')
    case 30214 => Some('H')
    case 30215 => Some('G')
    case 30216 => Some('G')
    case 30217 => Some('H')
    case 30218 => Some('I')
    case 30219 => Some('I')
    case 30220 => Some('I')
    case 30222 => Some('H')
    case 30223 => Some('H')
    case 30224 => Some('I')
    case 30228 => Some('F')
    case 30229 => Some('I')
    case 30230 => Some('I')
    case 30233 => Some('H')
    case 30234 => Some('G')
    case 30236 => Some('G')
    case 30237 => Some('F')
    case 30238 => Some('G')
    case 30240 => Some('I')
    case 30241 => Some('I')
    case 30248 => Some('G')
    case 30250 => Some('I')
    case 30251 => Some('I')
    case 30252 => Some('G')
    case 30253 => Some('G')
    case 30256 => Some('I')
    case 30257 => Some('H')
    case 30258 => Some('F')
    case 30259 => Some('I')
    case 30260 => Some('C')
    case 30263 => Some('G')
    case 30264 => Some('G')
    case 30265 => Some('G')
    case 30266 => Some('G')
    case 30268 => Some('G')
    case 30269 => Some('G')
    case 30270 => Some('G')
    case 30271 => Some('G')
    case 30272 => Some('C')
    case 30273 => Some('G')
    case 30274 => Some('G')
    case 30275 => Some('G')
    case 30276 => Some('H')
    case 30277 => Some('H')
    case 30281 => Some('F')
    case 30285 => Some('I')
    case 30286 => Some('I')
    case 30287 => Some('I')
    case 30288 => Some('F')
    case 30289 => Some('I')
    case 30290 => Some('I')
    case 30291 => Some('I')
    case 30292 => Some('C')
    case 30293 => Some('G')
    case 30294 => Some('C')
    case 30295 => Some('G')
    case 30296 => Some('C')
    case 30297 => Some('C')
    case 30298 => Some('C')
    case _ => None
  }

  function Zip303(n: int): (z: Option<char>)
    ensures z.Some? ==> 30300 <= n <= 30399 && 'A' <= z.value <= 'L'
  {
    match n
    case 30301 => Some('C')
    case 30302 => Some('C')
    case 30303 => Some('C')
    case 30304 => Some('C')
    case 30305 => Some('C')
    case 30306 => Some('C')
    case 30307 => Some('C')
    case 30308 => Some('C')
    case 30309 => Some('C')
    case 30310 => Some('C')
    case 30311 => Some('C')
    case 30312 => Some('C')
    case 30313 => Some('C')
    case 30314 => Some('C')
    case 30315 => Some('C')
    case 30316 => Some('C')
    case 30317 => Some('C')
    case 30318 => Some('C')
    case 30319 => Some('D')
    case 30320 => Some('C')
    case 30321 => Some('C')
    case 30322 => Some('C')
    case 30324 => Some('D')
    case 30325 => Some('D')
    case 30326 => Some('D')
    case 30327 => Some('D')
    case 30328 => Some('D')
    case 30329 => Some('C')
    case 30330 => Some('C')
    case 30331 => Some('C')
    case 30332 => Some('C')
    case 30333 => Some('C')
    case 30334 => Some('C')
    case 30336 => Some('C')
    case 30337 => Some('C')
    case 30338 => Some('D')
    case 30339 => Some('D')
    case 30340 => Some('D')
    case 30341 => Some('D')
    case 30342 => Some('D')
    case 30343 => Some('C')
    case 30344 => Some('C')
    case 30345 => Some('C')
    case 30346 => Some('D')
    case 30347 => Some('C')
    case 30348 => Some('C')
    case 30349 => Some('C')
    case 30350 => Some('D')
    case 30353 => Some('C')
    case 30354 => Some('C')
    case 30355 => Some('D')
    case 30356 => Some('C')
    case 30357 => Some('C')
    case 30358 => Some('D')
    case 30359 => Some('D')
    case 30360 => Some('D')
    case 30361 => Some('D')
    case 30362 => Some('D')
    case 30363 => Some('D')
    case 30364 => Some('C')
    case 30366 => Some('C')
    case 30368 => Some('C')
    case 30369 => Some('C')
    case 30370 => Some('C')
    case 30371 => Some('C')
    case 30374 => Some('C')
    case 30375 => Some('C')
    case 30376 => Some('C')
    case 30377 => Some('C')
    case 30378 => Some('C')
    case 30380 => Some('C')
    case 30384 => Some('C')
    case 30385 => Some('C')
    case 30386 => Some('C')
    case 30387 => Some('C')
    case 30388 => Some('C')
    case 30389 => Some('C')
    case 30390 => Some('D')
    case 30392 => Some('C')
    case 30394 => Some('C')
    case 30396 => Some('C')
    case 30398 => Some('C')
    case _ => None
  }

  function Zip304(n: int): (z: Option<char>)
    ensures z.Some? ==> 30400 <= n <= 30499 && 'A' <= z.value <= 'L'
  {
    match n
    case 30410 => Some('K')
    case 30412 => Some('L')
    case 30413 => Some('L')
    case 30414 => Some('L')
    case 30415 => Some('K')
    case 30417 => Some('K')
    case 30420 => Some('L')
    case 30421 => Some('K')
    case 30423 => Some('K')
    case 30424 => Some('K')
    case 30425 => Some('K')
    case 30426 => Some('L')
    case 30427 => Some('K')
    case 30428 => Some('K')
    case 30429 => Some('L')
    case 30434 => Some('J')
    case 30436 => Some('J')
    case 30438 => Some('K')
    case 30439 => Some('K')
    case 30441 => Some('K')
    case 30442 => Some('L')
    case 30445 => Some('K')
    case 30446 => Some('K')
    case 30447 => Some('K')
    case 30448 => Some('J')
    case 30449 => Some('K')
    case 30450 => Some('J')
    case 30451 => Some('K')
    case 30452 => Some('K')
    case 30453 => Some('K')
    case 30454 => Some('K')
    case 30455 => Some('K')
    case 30456 => Some('K')
    case 30457 => Some('K')
    case 30458 => Some('L')
    case 30459 => Some('K')
    case 30460 => Some('K')
    case 30461 => Some('L')
    case 30464 => Some('K')
    case 30467 => Some('K')
    case 30470 => Some('K')
    case 30471 => Some('K')
    case 30473 => Some('K')
    case 30477 => Some('L')
    case 30499 => Some('C')
    case _ => None
  }

  function Zip305(n: int): (z: Option<char>)
    ensures z.Some? ==> 30500 <= n <= 30599 && 'A' <= z.value <= 'L'
  {
    match n
    case 30501 => Some('F')
    case 30502 => Some('G')
    case 30503 => Some('E')
    case 30504 => Some('F')
    case 30506 => Some('F')
    case 30507 => Some('G')
    case 30510 => Some('F')
    case 30511 => Some('G')
    case 30512 => Some('H')
    case 30513 => Some('G')
    case 30514 => Some('G')
    case 30515 => Some('H')
    case 30516 => Some('F')
    case 30517 => Some('F')
    case 30518 => Some('F')
    case 30519 => Some('G')
    case 30520 => Some('H')
    case 30521 => Some('H')
    case 30522 => Some('G')
    case 30523 => Some('G')
    case 30525 => Some('H')
    case 30527 => Some('H')
    case 30528 => Some('H')
    case 30529 => Some('H')
    case 30530 => Some('I')
    case 30531 => Some('I')
    case 30533 => Some('I')
    case 30534 => Some('I')
    case 30535 => Some('I')
    case 30536 => Some('I')
    case 30537 => Some('I')
    case 30538 => Some('I')
    case 30539 => Some('I')
    case 30540 => Some('H')
    case 30541 => Some('I')
    case 30542 => Some('I')
    case 30543 => Some('I')
    case 30544 => Some('I')
    case 30545 => Some('H')
    case 30546 => Some('I')
    case 30547 => Some('I')
    case 30548 => Some('I')
    case 30549 => Some('H')
    case 30550 => Some('I')
    case 30552 => Some('H')
    case 30553 => Some('I')
    case 30554 => Some('I')
    case 30555 => Some('I')
    case 30557 => Some('I')
    case 30558 => Some('I')
    case 30559 => Some('I')
    case 30560 => Some('I')
    case 30562 => Some('I')
    case 30563 => Some('I')
    case 30564 => Some('I')
    case 30565 => Some('I')
    case 30566 => Some('I')
    case 30567 => Some('I')
    case 30568 => Some('I')
    case 30571 => Some('I')
    case 30572 => Some('I')
    case 30573 => Some('I')
    case 30575 => Some('I')
    case 30576 => Some('I')
    case 30577 => Some('I')
    case 30580 => Some('H')
    case 30581 => Some('I')
    case 30582 => Some('I')
    case 30596 => Some('H')
    case 30597 => Some('G')
    case 30598 => Some('G')
    case 30599 => Some('F')
    case _ => None
  }

  function Zip306(n: int): (z: Option<char>)
    ensures z.Some? ==> 30600 <= n <= 30699 && 'A' <= z.value <= 'L'
  {
    match n
    case 30601 => Some('H')
    case 30602 => Some('H')
    case 30603 => Some('H')
    case 30604 => Some('H')
    case 30605 => Some('H')
    case 30606 => Some('H')
    case 30607 => Some('H')
    case 30608 => Some('H')
    case 30609 => Some('H')
    case 30612 => Some('H')
    case 30619 => Some('H')
    case 30620 => Some('I')
    case 30621 => Some('I')
    case 30622 => Some('I')
    case 30623 => Some('I')
    case 30624 => Some('I')
    case 30625 => Some('I')
    case 30627 => Some('I')
    case 30628 => Some('I')
    case 30629 => Some('H')
    case 30630 => Some('I')
    case 30631 => Some('I')
    case 30633 => Some('H')
    case 30634 => Some('I')
    case 30635 => Some('I')
    case 30638 => Some('I')
    case 30639 => Some('I')
    case 30641 => Some('I')
    case 30642 => Some('I')
    case 30643 => Some('I')
    case 30645 => Some('I')
    case 30646 => Some('H')
    case 30647 => Some('F')
    case 30648 => Some('I')
    case 30650 => Some('I')
    case 30655 => Some('I')
    case 30656 => Some('H')
    case 30660 => Some('H')
    case 30662 => Some('H')
    case 30663 => Some('I')
    case 30664 => Some('I')
    case 30665 => Some('I')
    case 30666 => Some('I')
    case 30667 => Some('I')
    case 30668 => Some('I')
    case 30669 => Some('I')
    case 30671 => Some('I')
    case 30673 => Some('I')
    case 30677 => Some('I')
    case 30678 => Some('I')
    case 30680 => Some('I')
    case 30683 => Some('I')
    case _ => None
  }

  function Zip307(n: int): (z: Option<char>)
    ensures z.Some? ==> 30700 <= n <= 30799 && 'A' <= z.value <= 'L'
  {
    match n
    case 30701 => Some('I')
    case 30703 => Some('I')
    case 30705 => Some('I')
    case 30707 => Some('I')
    case 30708 => Some('I')
    case 30710 => Some('I')
    case 30711 => Some('I')
    case 30719 => Some('I')
    case 30720 => Some('I')
    case 30721 => Some('I')
    case 30724 => Some('I')
    case 30725 => Some('I')
    case 30726 => Some('I')
    case 30728 => Some('I')
    case 30730 => Some('I')
    case 30731 => Some('I')
    case 30732 => Some('I')
    case 30733 => Some('I')
    case 30734 => Some('I')
    case 30735 => Some('I')
    case 30736 => Some('I')
    case 30738 => Some('I')
    case 30739 => Some('I')
    case 30740 => Some('I')
    case 30741 => Some('I')
    case 30742 => Some('I')
    case 30746 => Some('I')
    case 30747 => Some('I')
    case 30750 => Some('I')
    case 30751 => Some('I')
    case 30752 => Some('I')
    case 30753 => Some('I')
    case 30755 => Some('I')
    case 30756 => Some('I')
    case 30757 => Some('I')
    case _ => None
  }

  function Zip308(n: int): (z: Option<char>)
    ensures z.Some? ==> 30800 <= n <= 30899 && 'A' <= z.value <= 'L'
  {
    match n
    case 30802 => Some('J')
    case 30803 => Some('J')
    case 30805 => Some('J')
    case 30807 => Some('J')
    case 30808 => Some('J')
    case 30809 => Some('J')
    case 30810 => Some('J')
    case 30812 => Some('J')
    case 30813 => Some('J')
    case 30814 => Some('J')
    case 30815 => Some('J')
    case 30816 => Some('J')
    case 30817 => Some('J')
    case 30818 => Some('K')
    case 30820 => Some('K')
    case 30821 => Some('K')
    case 30822 => Some('K')
    case 30823 => Some('K')
    case 30824 => Some('K')
    case 30828 => Some('K')
    case 30830 => Some('K')
    case 30833 => Some('K')
    case _ => None
  }

  function Zip309(n: int): (z: Option<char>)
    ensures z.Some? ==> 30900 <= n <= 30999 && 'A' <= z.value <= 'L'
  {
    match n
    case 30901 => Some('J')
    case 30903 => Some('J')
    case 30904 => Some('J')
    case 30905 => Some('J')
    case 30906 => Some('J')
    case 30907 => Some('J')
    case 30909 => Some('J')
    case 30912 => Some('J')
    case 30999 => Some('J')
    case _ => None
  }

  function Zip310(n: int): (z: Option<char>)
    ensures z.Some? ==> 31000 <= n <= 31099 && 'A' <= z.value <= 'L'
  {
    match n
    case 31001 => Some('J')
    case 31002 => Some('J')
    case 31003 => Some('J')
    case 31004 => Some('I')
    case 31005 => Some('J')
    case 31006 => Some('J')
    case 31007 => Some('J')
    case 31008 => Some('J')
    case 31009 => Some('J')
    case 31010 => Some('J')
    case 31011 => Some('J')
    case 31012 => Some('J')
    case 31013 => Some('J')
    case 31014 => Some('J')
    case 31015 => Some('J')
    case 31016 => Some('J')
    case 31017 => Some('J')
    case 31018 => Some('J')
    case 31019 => Some('K')
    case 31020 => Some('K')
    case 31021 => Some('J')
    case 31022 => Some('J')
    case 31023 => Some('J')
    case 31024 => Some('J')
    case 31025 => Some('J')
    case 31027 => Some('K')
    case 31028 => Some('K')
    case 31029 => Some('J')
    case 31030 => Some('K')
    case 31031 => Some('J')
    case 31032 => Some('K')
    case 31033 => Some('K')
    case 31034 => Some('K')
    case 31035 => Some('J')
    case 31036 => Some('J')
    case 31037 => Some('K')
    case 31038 => Some('J')
    case 31039 => Some('J')
    case 31040 => Some('K')
    case 31041 => Some('J')
    case 31042 => Some('J')
    case 31044 => Some('J')
    case 31045 => Some('J')
    case 31046 => Some('K')
    case 31047 => Some('K')
    case 31049 => Some('K')
    case 31050 => Some('K')
    case 31051 => Some('K')
    case 31052 => Some('K')
    case 31054 => Some('K')
    case 31055 => Some('K')
    case 31057 => Some('K')
    case 31058 => Some('K')
    case 31060 => Some('K')
    case 31061 => Some('K')
    case 31062 => Some('K')
    case 31063 => Some('K')
    case 31064 => Some('K')
    case 31065 => Some('K')
    case 31066 => Some('K')
    case 31067 => Some('K')
    case 31068 => Some('K')
    case 31069 => Some('J')
    case 31070 => Some('J')
    case 31071 => Some('K')
    case 31072 => Some('K')
    case 31075 => Some('K')
    case 31076 => Some('K')
    case 31077 => Some('K')
    case 31078 => Some('K')
    case 31079 => Some('K')
    case 31081 => Some('K')
    case 31082 => Some('K')
    case 31083 => Some('K')
    case 31084 => Some('K')
    case 31085 => Some('K')
    case 31086 => Some('K')
    case 31087 => Some('K')
    case 31088 => Some('K')
    case 31089 => Some('K')
    case 31090 => Some('K')
    case 31091 => Some('K')
    case 31092 => Some('K')
    case 31093 => Some('K')
    case 31094 => Some('K')
    case 31095 => Some('K')
    case 31096 => Some('J')
    case 31097 => Some('K')
    case 31098 => Some('J')
    case 31099 => Some('J')
    case _ => None
  }

  function Zip311(n: int): (z: Option<char>)
    ensures z.Some? ==> 31100 <= n <= 31199 && 'A' <= z.value <= 'L'
  {
    match n
    case 31106 => Some('J')
    case 31107 => Some('J')
    case 31119 => Some('J')
    case 31126 => Some('J')
    case 31131 => Some('J')
    case 31136 => Some('J')
    case 31139 => Some('J')
    case 31141 => Some('J')
    case 31145 => Some('J')
    case 31146 => Some('J')
    case 31150 => Some('J')
    case 31156 => Some('K')
    case 31191 => Some('J')
    case 31192 => Some('J')
    case 31193 => Some('J')
    case 31195 => Some('J')
    case 31196 => Some('J')
    case 31197 => Some('J')
    case 31198 => Some('K')
    case 31199 => Some('J')
    case _ => None
  }

  function Zip312(n: int): (z: Option<char>)
    ensures z.Some? ==> 31200 <= n <= 31299 && 'A' <= z.value <= 'L'
  {
    match n
    case 31201 => Some('K')
    case 31202 => Some('K')
    case 31203 => Some('K')
    case 31204 => Some('K')
    case 31205 => Some('K')
    case 31206 => Some('K')
    case 31207 => Some('K')
    case 31208 => Some('K')
    case 31209 => Some('K')
    case 31210 => Some('K')
    case 31211 => Some('K')
    case 31212 => Some('K')
    case 31213 => Some('K')
    case 31216 => Some('K')
    case 31217 => Some('K')
    case 31220 => Some('L')
    case 31294 => Some('K')
    case 31295 => Some('K')
    case 31296 => Some('K')
    case 31297 => Some('K')
    case 31298 => Some('K')
    case 31299 => Some('K')
    case _ => None
  }

  function Zip313(n: int): (z: Option<char>)
    ensures z.Some? ==> 31300 <= n <= 31399 && 'A' <= z.value <= 'L'
  {
    match n
    case 31301 => Some('K')
    case 31302 => Some('K')
    case 31303 => Some('K')
    case 31304 => Some('K')
    case 31305 => Some('K')
    case 31308 => Some('K')
    case 31309 => Some('K')
    case 31312 => Some('K')
    case 31313 => Some('K')
    case 31314 => Some('K')
    case 31315 => Some('K')
    case 31316 => Some('K')
    case 31318 => Some('K')
    case 31319 => Some('K')
    case 31320 => Some('K')
    case 31321 => Some('K')
    case 31322 => Some('K')
    case 31323 => Some('K')
    case 31324 => Some('K')
    case 31326 => Some('K')
    case 31327 => Some('K')
    case 31328 => Some('K')
    case 31329 => Some('K')
    case 31331 => Some('K')
    case 31333 => Some('K')
    case _ => None
  }

  function Zip314(n: int): (z: Option<char>)
    ensures z.Some? ==> 31400 <= n <= 31499 && 'A' <= z.value <= 'L'
  {
    match n
    case 31401 => Some('K')
    case 31402 => Some('K')
    case 31403 => Some('K')
    case 31404 => Some('K')
    case 31405 => Some('K')
    case 31406 => Some('K')
    case 31407 => Some('K')
    case 31408 => Some('K')
    case 31409 => Some('K')
    case 31410 => Some('K')
    case 31411 => Some('K')
    case 31412 => Some('K')
    case 31414 => Some('K')
    case 31415 => Some('K')
    case 31416 => Some('K')
    case 31418 => Some('K')
    case 31419 => Some('K')
    case 31420 => Some('K')
    case 31421 => Some('K')
    case _ => None
  }

  function Zip315(n: int): (z: Option<char>)
    ensures z.Some? ==> 31500 <= n <= 31599 && 'A' <= z.value <= 'L'
  {
    match n
    case 31501 => Some('L')
    case 31502 => Some('K')
    case 31503 => Some('L')
    case 31510 => Some('K')
    case 31512 => Some('L')
    case 31513 => Some('L')
    case 31515 => Some('L')
    case 31516 => Some('L')
    case 31518 => Some('L')
    case 31519 => Some('L')
    case 31520 => Some('L')
    case 31521 => Some('L')
    case 31522 => Some('L')
    case 31523 => Some('L')
    case 31524 => Some('L')
    case 31525 => Some('L')
    case 31527 => Some('L')
    case 31532 => Some('K')
    case 31533 => Some('K')
    case 31535 => Some('L')
    case 31537 => Some('L')
    case 31539 => Some('L')
    case 31542 => Some('L')
    case 31543 => Some('L')
    case 31544 => Some('L')
    case 31545 => Some('L')
    case 31546 => Some('L')
    case 31547 => Some('L')
    case 31548 => Some('L')
    case 31549 => Some('L')
    case 31550 => Some('L')
    case 31551 => Some('L')
    case 31552 => Some('L')
    case 31553 => Some('L')
    case 31554 => Some('L')
    case 31555 => Some('L')
    case 31556 => Some('L')
    case 31557 => Some('L')
    case 31558 => Some('L')
    case 31560 => Some('L')
    case 31561 => Some('L')
    case 31562 => Some('L')
    case 31563 => Some('L')
    case 31564 => Some('L')
    case 31565 => Some('L')
    case 31566 => Some('L')
    case 31567 => Some('L')
    case 31568 => Some('L')
    case 31569 => Some('L')
    case 31598 => Some('L')
    case 31599 => Some('L')
    case _ => None
  }

  function Zip316(n: int): (z: Option<char>)
    ensures z.Some? ==> 31600 <= n <= 31699 && 'A' <= z.value <= 'L'
  {
    match n
    case 31601 => Some('K')
    case 31602 => Some('K')
    case 31603 => Some('K')
    case 31605 => Some('K')
    case 31606 => Some('K')
    case 31620 => Some('L')
    case 31622 => Some('L')
    case 31623 => Some('L')
    case 31624 => Some('L')
    case 31625 => Some('L')
    case 31626 => Some('L')
    case 31627 => Some('K')
    case 31629 => Some('L')
    case 31630 => Some('L')
    case 31631 => Some('L')
    case 31632 => Some('L')
    case 31634 => Some('L')
    case 31635 => Some('L')
    case 31636 => Some('L')
    case 31637 => Some('L')
    case 31638 => Some('L')
    case 31639 => Some('L')
    case 31641 => Some('L')
    case 31642 => Some('L')
    case 31643 => Some('L')
    case 31645 => Some('L')
    case 31647 => Some('L')
    case 31648 => Some('L')
    case 31649 => Some('L')
    case 31650 => Some('L')
    case 31698 => Some('K')
    case 31699 => Some('K')
    case _ => None
  }

  function Zip317(n: int): (z: Option<char>)
    ensures z.Some? ==> 31700 <= n <= 31799 && 'A' <= z.value <= 'L'
  {
    match n
    case 31701 => Some('J')
    case 31702 => Some('J')
    case 31703 => Some('J')
    case 31704 => Some('J')
    case 31705 => Some('J')
    case 31707 => Some('J')
    case 31709 => Some('J')
    case 31711 => Some('K')
    case 31712 => Some('L')
    case 31714 => Some('K')
    case 31716 => Some('L')
    case 31719 => Some('L')
    case 31720 => Some('K')
    case 31721 => Some('L')
    case 31722 => Some('K')
    case 31727 => Some('K')
    case 31730 => Some('L')
    case 31733 => Some('L')
    case 31735 => Some('L')
    case 31738 => Some('L')
    case 31743 => Some('L')
    case 31744 => Some('L')
    case 31747 => Some('K')
    case 31749 => Some('L')
    case 31750 => Some('K')
    case 31753 => Some('L')
    case 31756 => Some('L')
    case 31757 => Some('L')
    case 31763 => Some('L')
    case 31764 => Some('K')
    case 31765 => Some('L')
    case 31768 => Some('L')
    case 31771 => Some('L')
    case 31772 => Some('L')
    case 31773 => Some('K')
    case 31774 => Some('L')
    case 31775 => Some('L')
    case 31776 => Some('L')
    case 31778 => Some('L')
    case 31779 => Some('L')
    case 31780 => Some('L')
    case 31781 => Some('L')
    case 31783 => Some('L')
    case 31784 => Some('L')
    case 31787 => Some('L')
    case 31788 => Some('L')
    case 31789 => Some('L')
    case 31790 => Some('L')
    case 31791 => Some('K')
    case 31792 => Some('K')
    case 31793 => Some('K')
    case 31794 => Some('L')
    case 31795 => Some('L')
    case 31796 => Some('L')
    case 31798 => Some('K')
    case 31799 => Some('L')
    case _ => None
  }

  function Zip318(n: int): (z: Option<char>)
    ensures z.Some? ==> 31800 <= n <= 31899 && 'A' <= z.value <= 'L'
  {
    match n
    case 31801 => Some('J')
    case 31803 => Some('J')
    case 31804 => Some('J')
    case 31805 => Some('J')
    case 31806 => Some('J')
    case 31807 => Some('J')
    case 31808 => Some('J')
    case 31810 => Some('J')
    case 31811 => Some('K')
    case 31812 => Some('K')
    case 31814 => Some('L')
    case 31815 => Some('K')
    case 31816 => Some('J')
    case 31820 => Some('L')
    case 31822 => Some('K')
    case 31823 => Some('K')
    case 31826 => Some('K')
    case 31827 => Some('L')
    case 31830 => Some('J')
    case 31831 => Some('L')
    case 31833 => Some('L')
    case 31836 => Some('K')
    case _ => None
  }

  function Zip362(n: int): (z: Option<char>)
    ensures z.Some? ==> 36200 <= n <= 36299 && 'A' <= z.value <= 'L'
  {
    match n
    case 36261 => Some('J')
    case 36262 => Some('J')
    case 36263 => Some('I')
    case 36264 => Some('K')
    case 36269 => Some('I')
    case 36273 => Some('I')
    case 36274 => Some('K')
    case 36275 => Some('K')
    case 36278 => Some('K')
    case 36280 => Some('J')
    case _ => None
  }

  function Zip368(n: int): (z: Option<char>)
    ensures z.Some? ==> 36800 <= n <= 36899 && 'A' <= z.value <= 'L'
  {
    match n
    case 36855 => Some('L')
    case 36863 => Some('L')
    case _ => None
  }

  function Zip399(n: int): (z: Option<char>)
    ensures z.Some? ==> 39900 <= n <= 39999 && 'A' <= z.value <= 'L'
  {
    match n
    case 39901 => Some('B')
    case _ => None
  }
}
