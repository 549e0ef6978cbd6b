/** The constant tables of keywordhash.h: the packed keyword text and the chained hash over it.
    Each table is split into the rows in which the source prints it. */
module KeywordTables {

  const TEXT_LENGTH := 553
  const KEYWORDS := 124

  /** An upper-case ASCII letter or the underscore. */
  predicate KeywordByte(c: bv8) {
    65 <= c <= 90 || c == 95
  }

  /** zText: the keywords, overlapping where the end of one is the start of the next. */
  function ZTextRow0(i: nat): (c: bv8)
    requires 0 <= i < 18
    ensures KeywordByte(c)
  {
    match i // REINDEXEDESCAPEACH
    case 0 => 82 case 1 => 69 case 2 => 73 case 3 => 78 case 4 => 68 case 5 => 69
    case 6 => 88 case 7 => 69 case 8 => 68 case 9 => 69 case 10 => 83 case 11 => 67
    case 12 => 65 case 13 => 80 case 14 => 69 case 15 => 65 case 16 => 67 case _ => 72
  }

  function ZTextRow1(i: nat): (c: bv8)
    requires 18 <= i < 36
    ensures KeywordByte(c)
  {
    match i // ECKEYBEFOREIGNOREG
    case 18 => 69 case 19 => 67 case 20 => 75 case 21 => 69 case 22 => 89 case 23 => 66
    case 24 => 69 case 25 => 70 case 26 => 79 case 27 => 82 case 28 => 69 case 29 => 73
    case 30 => 71 case 31 => 78 case 32 => 79 case 33 => 82 case 34 => 69 case _ => 71
  }

  function ZTextRow2(i: nat): (c: bv8)
    requires 36 <= i < 54
    ensures KeywordByte(c)
  {
    match i // EXPLAINSTEADDATABA
    case 36 => 69 case 37 => 88 case 38 => 80 case 39 => 76 case 40 => 65 case 41 => 73
    case 42 => 78 case 43 => 83 case 44 => 84 case 45 => 69 case 46 => 65 case 47 => 68
    case 48 => 68 case 49 => 65 case 50 => 84 case 51 => 65 case 52 => 66 case _ => 65
  }

  function ZTextRow3(i: nat): (c: bv8)
    requires 54 <= i < 72
    ensures KeywordByte(c)
  {
    match i // SELECTABLEFTHENDEF
    case 54 => 83 case 55 => 69 case 56 => 76 case 57 => 69 case 58 => 67 case 59 => 84
    case 60 => 65 case 61 => 66 case 62 => 76 case 63 => 69 case 64 => 70 case 65 => 84
    case 66 => 72 case 67 => 69 case 68 => 78 case 69 => 68 case 70 => 69 case _ => 70
  }

  function ZTextRow4(i: nat): (c: bv8)
    requires 72 <= i < 90
    ensures KeywordByte(c)
  {
    match i // ERRABLELSEXCEPTRAN
    case 72 => 69 case 73 => 82 case 74 => 82 case 75 => 65 case 76 => 66 case 77 => 76
    case 78 => 69 case 79 => 76 case 80 => 83 case 81 => 69 case 82 => 88 case 83 => 67
    case 84 => 69 case 85 => 80 case 86 => 84 case 87 => 82 case 88 => 65 case _ => 78
  }

  function ZTextRow5(i: nat): (c: bv8)
    requires 90 <= i < 108
    ensures KeywordByte(c)
  {
    match i // SACTIONATURALTERAI
    case 90 => 83 case 91 => 65 case 92 => 67 case 93 => 84 case 94 => 73 case 95 => 79
    case 96 => 78 case 97 => 65 case 98 => 84 case 99 => 85 case 100 => 82 case 101 => 65
    case 102 => 76 case 103 => 84 case 104 => 69 case 105 => 82 case 106 => 65 case _ => 73
  }

  function ZTextRow6(i: nat): (c: bv8)
    requires 108 <= i < 126
    ensures KeywordByte(c)
  {
    match i // SEXCLUSIVEXISTSAVE
    case 108 => 83 case 109 => 69 case 110 => 88 case 111 => 67 case 112 => 76 case 113 => 85
    case 114 => 83 case 115 => 73 case 116 => 86 case 117 => 69 case 118 => 88 case 119 => 73
    case 120 => 83 case 121 => 84 case 122 => 83 case 123 => 65 case 124 => 86 case _ => 69
  }

  function ZTextRow7(i: nat): (c: bv8)
    requires 126 <= i < 144
    ensures KeywordByte(c)
  {
    match i // POINTERSECTRIGGERE
    case 126 => 80 case 127 => 79 case 128 => 73 case 129 => 78 case 130 => 84 case 131 => 69
    case 132 => 82 case 133 => 83 case 134 => 69 case 135 => 67 case 136 => 84 case 137 => 82
    case 138 => 73 case 139 => 71 case 140 => 71 case 141 => 69 case 142 => 82 case _ => 69
  }

  function ZTextRow8(i: nat): (c: bv8)
    requires 144 <= i < 162
    ensures KeywordByte(c)
  {
    match i // FERENCESCONSTRAINT
    case 144 => 70 case 145 => 69 case 146 => 82 case 147 => 69 case 148 => 78 case 149 => 67
    case 150 => 69 case 151 => 83 case 152 => 67 case 153 => 79 case 154 => 78 case 155 => 83
    case 156 => 84 case 157 => 82 case 158 => 65 case 159 => 73 case 160 => 78 case _ => 84
  }

  function ZTextRow9(i: nat): (c: bv8)
    requires 162 <= i < 180
    ensures KeywordByte(c)
  {
    match i // OFFSETEMPORARYUNIQ
    case 162 => 79 case 163 => 70 case 164 => 70 case 165 => 83 case 166 => 69 case 167 => 84
    case 168 => 69 case 169 => 77 case 170 => 80 case 171 => 79 case 172 => 82 case 173 => 65
    case 174 => 82 case 175 => 89 case 176 => 85 case 177 => 78 case 178 => 73 case _ => 81
  }

  function ZTextRow10(i: nat): (c: bv8)
    requires 180 <= i < 198
    ensures KeywordByte(c)
  {
    match i // UERYWITHOUTERELEAS
    case 180 => 85 case 181 => 69 case 182 => 82 case 183 => 89 case 184 => 87 case 185 => 73
    case 186 => 84 case 187 => 72 case 188 => 79 case 189 => 85 case 190 => 84 case 191 => 69
    case 192 => 82 case 193 => 69 case 194 => 76 case 195 => 69 case 196 => 65 case _ => 83
  }

  function ZTextRow11(i: nat): (c: bv8)
    requires 198 <= i < 216
    ensures KeywordByte(c)
  {
    match i // EATTACHAVINGROUPDA
    case 198 => 69 case 199 => 65 case 200 => 84 case 201 => 84 case 202 => 65 case 203 => 67
    case 204 => 72 case 205 => 65 case 206 => 86 case 207 => 73 case 208 => 78 case 209 => 71
    case 210 => 82 case 211 => 79 case 212 => 85 case 213 => 80 case 214 => 68 case _ => 65
  }

  function ZTextRow12(i: nat): (c: bv8)
    requires 216 <= i < 234
    ensures KeywordByte(c)
  {
    match i // TEBEGINNERECURSIVE
    case 216 => 84 case 217 => 69 case 218 => 66 case 219 => 69 case 220 => 71 case 221 => 73
    case 222 => 78 case 223 => 78 case 224 => 69 case 225 => 82 case 226 => 69 case 227 => 67
    case 228 => 85 case 229 => 82 case 230 => 83 case 231 => 73 case 232 => 86 case _ => 69
  }

  function ZTextRow13(i: nat): (c: bv8)
    requires 234 <= i < 252
    ensures KeywordByte(c)
  {
    match i // BETWEENOTNULLIKECA
    case 234 => 66 case 235 => 69 case 236 => 84 case 237 => 87 case 238 => 69 case 239 => 69
    case 240 => 78 case 241 => 79 case 242 => 84 case 243 => 78 case 244 => 85 case 245 => 76
    case 246 => 76 case 247 => 73 case 248 => 75 case 249 => 69 case 250 => 67 case _ => 65
  }

  function ZTextRow14(i: nat): (c: bv8)
    requires 252 <= i < 270
    ensures KeywordByte(c)
  {
    match i // SCADELETECASECOLLA
    case 252 => 83 case 253 => 67 case 254 => 65 case 255 => 68 case 256 => 69 case 257 => 76
    case 258 => 69 case 259 => 84 case 260 => 69 case 261 => 67 case 262 => 65 case 263 => 83
    case 264 => 69 case 265 => 67 case 266 => 79 case 267 => 76 case 268 => 76 case _ => 65
  }

  function ZTextRow15(i: nat): (c: bv8)
    requires 270 <= i < 288
    ensures KeywordByte(c)
  {
    match i // TECREATECURRENT_DA
    case 270 => 84 case 271 => 69 case 272 => 67 case 273 => 82 case 274 => 69 case 275 => 65
    case 276 => 84 case 277 => 69 case 278 => 67 case 279 => 85 case 280 => 82 case 281 => 82
    case 282 => 69 case 283 => 78 case 284 => 84 case 285 => 95 case 286 => 68 case _ => 65
  }

  function ZTextRow16(i: nat): (c: bv8)
    requires 288 <= i < 306
    ensures KeywordByte(c)
  {
    match i // TEDETACHIMMEDIATEJ
    case 288 => 84 case 289 => 69 case 290 => 68 case 291 => 69 case 292 => 84 case 293 => 65
    case 294 => 67 case 295 => 72 case 296 => 73 case 297 => 77 case 298 => 77 case 299 => 69
    case 300 => 68 case 301 => 73 case 302 => 65 case 303 => 84 case 304 => 69 case _ => 74
  }

  function ZTextRow17(i: nat): (c: bv8)
    requires 306 <= i < 324
    ensures KeywordByte(c)
  {
    match i // OINSERTMATCHPLANAL
    case 306 => 79 case 307 => 73 case 308 => 78 case 309 => 83 case 310 => 69 case 311 => 82
    case 312 => 84 case 313 => 77 case 314 => 65 case 315 => 84 case 316 => 67 case 317 => 72
    case 318 => 80 case 319 => 76 case 320 => 65 case 321 => 78 case 322 => 65 case _ => 76
  }

  function ZTextRow18(i: nat): (c: bv8)
    requires 324 <= i < 342
    ensures KeywordByte(c)
  {
    match i // YZEPRAGMABORTVALUE
    case 324 => 89 case 325 => 90 case 326 => 69 case 327 => 80 case 328 => 82 case 329 => 65
    case 330 => 71 case 331 => 77 case 332 => 65 case 333 => 66 case 334 => 79 case 335 => 82
    case 336 => 84 case 337 => 86 case 338 => 65 case 339 => 76 case 340 => 85 case _ => 69
  }

  function ZTextRow19(i: nat): (c: bv8)
    requires 342 <= i < 360
    ensures KeywordByte(c)
  {
    match i // SVIRTUALIMITWHENWH
    case 342 => 83 case 343 => 86 case 344 => 73 case 345 => 82 case 346 => 84 case 347 => 85
    case 348 => 65 case 349 => 76 case 350 => 73 case 351 => 77 case 352 => 73 case 353 => 84
    case 354 => 87 case 355 => 72 case 356 => 69 case 357 => 78 case 358 => 87 case _ => 72
  }

  function ZTextRow20(i: nat): (c: bv8)
    requires 360 <= i < 378
    ensures KeywordByte(c)
  {
    match i // ERENAMEAFTEREPLACE
    case 360 => 69 case 361 => 82 case 362 => 69 case 363 => 78 case 364 => 65 case 365 => 77
    case 366 => 69 case 367 => 65 case 368 => 70 case 369 => 84 case 370 => 69 case 371 => 82
    case 372 => 69 case 373 => 80 case 374 => 76 case 375 => 65 case 376 => 67 case _ => 69
  }

  function ZTextRow21(i: nat): (c: bv8)
    requires 378 <= i < 396
    ensures KeywordByte(c)
  {
    match i // ANDEFAULTAUTOINCRE
    case 378 => 65 case 379 => 78 case 380 => 68 case 381 => 69 case 382 => 70 case 383 => 65
    case 384 => 85 case 385 => 76 case 386 => 84 case 387 => 65 case 388 => 85 case 389 => 84
    case 390 => 79 case 391 => 73 case 392 => 78 case 393 => 67 case 394 => 82 case _ => 69
  }

  function ZTextRow22(i: nat): (c: bv8)
    requires 396 <= i < 414
    ensures KeywordByte(c)
  {
    match i // MENTCASTCOLUMNCOMM
    case 396 => 77 case 397 => 69 case 398 => 78 case 399 => 84 case 400 => 67 case 401 => 65
    case 402 => 83 case 403 => 84 case 404 => 67 case 405 => 79 case 406 => 76 case 407 => 85
    case 408 => 77 case 409 => 78 case 410 => 67 case 411 => 79 case 412 => 77 case _ => 77
  }

  function ZTextRow23(i: nat): (c: bv8)
    requires 414 <= i < 432
    ensures KeywordByte(c)
  {
    match i // ITCONFLICTCROSSCUR
    case 414 => 73 case 415 => 84 case 416 => 67 case 417 => 79 case 418 => 78 case 419 => 70
    case 420 => 76 case 421 => 73 case 422 => 67 case 423 => 84 case 424 => 67 case 425 => 82
    case 426 => 79 case 427 => 83 case 428 => 83 case 429 => 67 case 430 => 85 case _ => 82
  }

  function ZTextRow24(i: nat): (c: bv8)
    requires 432 <= i < 450
    ensures KeywordByte(c)
  {
    match i // RENT_TIMESTAMPRIMA
    case 432 => 82 case 433 => 69 case 434 => 78 case 435 => 84 case 436 => 95 case 437 => 84
    case 438 => 73 case 439 => 77 case 440 => 69 case 441 => 83 case 442 => 84 case 443 => 65
    case 444 => 77 case 445 => 80 case 446 => 82 case 447 => 73 case 448 => 77 case _ => 65
  }

  function ZTextRow25(i: nat): (c: bv8)
    requires 450 <= i < 468
    ensures KeywordByte(c)
  {
    match i // RYDEFERREDISTINCTD
    case 450 => 82 case 451 => 89 case 452 => 68 case 453 => 69 case 454 => 70 case 455 => 69
    case 456 => 82 case 457 => 82 case 458 => 69 case 459 => 68 case 460 => 73 case 461 => 83
    case 462 => 84 case 463 => 73 case 464 => 78 case 465 => 67 case 466 => 84 case _ => 68
  }

  function ZTextRow26(i: nat): (c: bv8)
    requires 468 <= i < 486
    ensures KeywordByte(c)
  {
    match i // ROPFAILFROMFULLGLO
    case 468 => 82 case 469 => 79 case 470 => 80 case 471 => 70 case 472 => 65 case 473 => 73
    case 474 => 76 case 475 => 70 case 476 => 82 case 477 => 79 case 478 => 77 case 479 => 70
    case 480 => 85 case 481 => 76 case 482 => 76 case 483 => 71 case 484 => 76 case _ => 79
  }

  function ZTextRow27(i: nat): (c: bv8)
    requires 486 <= i < 504
    ensures KeywordByte(c)
  {
    match i // BYIFISNULLORDEREST
    case 486 => 66 case 487 => 89 case 488 => 73 case 489 => 70 case 490 => 73 case 491 => 83
    case 492 => 78 case 493 => 85 case 494 => 76 case 495 => 76 case 496 => 79 case 497 => 82
    case 498 => 68 case 499 => 69 case 500 => 82 case 501 => 69 case 502 => 83 case _ => 84
  }

  function ZTextRow28(i: nat): (c: bv8)
    requires 504 <= i < 522
    ensures KeywordByte(c)
  {
    match i // RICTRIGHTROLLBACKR
    case 504 => 82 case 505 => 73 case 506 => 67 case 507 => 84 case 508 => 82 case 509 => 73
    case 510 => 71 case 511 => 72 case 512 => 84 case 513 => 82 case 514 => 79 case 515 => 76
    case 516 => 76 case 517 => 66 case 518 => 65 case 519 => 67 case 520 => 75 case _ => 82
  }

  function ZTextRow29(i: nat): (c: bv8)
    requires 522 <= i < 540
    ensures KeywordByte(c)
  {
    match i // OWUNIONUSINGVACUUM
    case 522 => 79 case 523 => 87 case 524 => 85 case 525 => 78 case 526 => 73 case 527 => 79
    case 528 => 78 case 529 => 85 case 530 => 83 case 531 => 73 case 532 => 78 case 533 => 71
    case 534 => 86 case 535 => 65 case 536 => 67 case 537 => 85 case 538 => 85 case _ => 77
  }

  function ZTextRow30(i: nat): (c: bv8)
    requires 540 <= i < 553
    ensures KeywordByte(c)
  {
    match i // VIEWINITIALLY
    case 540 => 86 case 541 => 73 case 542 => 69 case 543 => 87 case 544 => 73 case 545 => 78
    case 546 => 73 case 547 => 84 case 548 => 73 case 549 => 65 case 550 => 76 case 551 => 76
    case _ => 89
  }

  function ZText(i: nat): (c: bv8)
    requires i < 553
    ensures KeywordByte(c)
  {
    if i < 18 then ZTextRow0(i) else
    if i < 36 then ZTextRow1(i) else
    if i < 54 then ZTextRow2(i) else
    if i < 72 then ZTextRow3(i) else
    if i < 90 then ZTextRow4(i) else
    if i < 108 then ZTextRow5(i) else
    if i < 126 then ZTextRow6(i) else
    if i < 144 then ZTextRow7(i) else
    if i < 162 then ZTextRow8(i) else
    if i < 180 then ZTextRow9(i) else
    if i < 198 then ZTextRow10(i) else
    if i < 216 then ZTextRow11(i) else
    if i < 234 then ZTextRow12(i) else
    if i < 252 then ZTextRow13(i) else
    if i < 270 then ZTextRow14(i) else
    if i < 288 then ZTextRow15(i) else
    if i < 306 then ZTextRow16(i) else
    if i < 324 then ZTextRow17(i) else
    if i < 342 then ZTextRow18(i) else
    if i < 360 then ZTextRow19(i) else
    if i < 378 then ZTextRow20(i) else
    if i < 396 then ZTextRow21(i) else
    if i < 414 then ZTextRow22(i) else
    if i < 432 then ZTextRow23(i) else
    if i < 450 then ZTextRow24(i) else
    if i < 468 then ZTextRow25(i) else
    if i < 486 then ZTextRow26(i) else
    if i < 504 then ZTextRow27(i) else
    if i < 522 then ZTextRow28(i) else
    if i < 540 then ZTextRow29(i) else
    ZTextRow30(i)
  }

  /** aHash: one more than the first keyword of the bucket, or 0. */
  function AHashRow0(i: nat): (link: nat)
    requires 0 <= i < 13
    ensures link <= KEYWORDS
  {
    match i
    case 0 => 76 case 1 => 105 case 2 => 117 case 3 => 74 case 4 => 0 case 5 => 45
    case 6 => 0 case 7 => 0 case 8 => 82 case 9 => 0 case 10 => 77 case 11 => 0
    case _ => 0
  }

  function AHashRow1(i: nat): (link: nat)
    requires 13 <= i < 26
    ensures link <= KEYWORDS
  {
    match i
    case 13 => 42 case 14 => 12 case 15 => 78 case 16 => 15 case 17 => 0 case 18 => 116
    case 19 => 85 case 20 => 54 case 21 => 112 case 22 => 0 case 23 => 19 case 24 => 0
    case _ => 0
  }

  function AHashRow2(i: nat): (link: nat)
    requires 26 <= i < 39
    ensures link <= KEYWORDS
  {
    match i
    case 26 => 121 case 27 => 0 case 28 => 119 case 29 => 115 case 30 => 0 case 31 => 22
    case 32 => 93 case 33 => 0 case 34 => 9 case 35 => 0 case 36 => 0 case 37 => 70
    case _ => 71
  }

  function AHashRow3(i: nat): (link: nat)
    requires 39 <= i < 52
    ensures link <= KEYWORDS
  {
    match i
    case 39 => 0 case 40 => 69 case 41 => 6 case 42 => 0 case 43 => 48 case 44 => 90
    case 45 => 102 case 46 => 0 case 47 => 118 case 48 => 101 case 49 => 0 case 50 => 0
    case _ => 44
  }

  function AHashRow4(i: nat): (link: nat)
    requires 52 <= i < 65
    ensures link <= KEYWORDS
  {
    match i
    case 52 => 0 case 53 => 103 case 54 => 24 case 55 => 0 case 56 => 17 case 57 => 0
    case 58 => 122 case 59 => 53 case 60 => 23 case 61 => 0 case 62 => 5 case 63 => 110
    case _ => 25
  }

  function AHashRow5(i: nat): (link: nat)
    requires 65 <= i < 78
    ensures link <= KEYWORDS
  {
    match i
    case 65 => 96 case 66 => 0 case 67 => 0 case 68 => 124 case 69 => 106 case 70 => 60
    case 71 => 123 case 72 => 57 case 73 => 28 case 74 => 55 case 75 => 0 case 76 => 91
    case _ => 0
  }

  function AHashRow6(i: nat): (link: nat)
    requires 78 <= i < 91
    ensures link <= KEYWORDS
  {
    match i
    case 78 => 100 case 79 => 26 case 80 => 0 case 81 => 99 case 82 => 0 case 83 => 0
    case 84 => 0 case 85 => 95 case 86 => 92 case 87 => 97 case 88 => 88 case 89 => 109
    case _ => 14
  }

  function AHashRow7(i: nat): (link: nat)
    requires 91 <= i < 104
    ensures link <= KEYWORDS
  {
    match i
    case 91 => 39 case 92 => 108 case 93 => 0 case 94 => 81 case 95 => 0 case 96 => 18
    case 97 => 89 case 98 => 111 case 99 => 32 case 100 => 0 case 101 => 120 case 102 => 80
    case _ => 113
  }

  function AHashRow8(i: nat): (link: nat)
    requires 104 <= i < 117
    ensures link <= KEYWORDS
  {
    match i
    case 104 => 62 case 105 => 46 case 106 => 84 case 107 => 0 case 108 => 0 case 109 => 94
    case 110 => 40 case 111 => 59 case 112 => 114 case 113 => 0 case 114 => 36 case 115 => 0
    case _ => 0
  }

  function AHashRow9(i: nat): (link: nat)
    requires 117 <= i < 127
    ensures link <= KEYWORDS
  {
    match i
    case 117 => 29 case 118 => 0 case 119 => 86 case 120 => 63 case 121 => 64 case 122 => 0
    case 123 => 20 case 124 => 61 case 125 => 0 case _ => 56
  }

  function AHash(i: nat): (link: nat)
    requires i < 127
    ensures link <= KEYWORDS
  {
    if i < 13 then AHashRow0(i) else
    if i < 26 then AHashRow1(i) else
    if i < 39 then AHashRow2(i) else
    if i < 52 then AHashRow3(i) else
    if i < 65 then AHashRow4(i) else
    if i < 78 then AHashRow5(i) else
    if i < 91 then AHashRow6(i) else
    if i < 104 then AHashRow7(i) else
    if i < 117 then AHashRow8(i) else
    AHashRow9(i)
  }

  /** aNext: one more than the next keyword of the bucket, or 0.  Chains run downwards. */
  function ANextRow0(i: nat): (link: nat)
    requires 0 <= i < 13
    ensures link <= i
  {
    match i
    case 0 => 0 case 1 => 0 case 2 => 0 case 3 => 0 case 4 => 4 case 5 => 0
    case 6 => 0 case 7 => 0 case 8 => 0 case 9 => 0 case 10 => 0 case 11 => 0
    case _ => 0
  }

  function ANextRow1(i: nat): (link: nat)
    requires 13 <= i < 26
    ensures link <= i
  {
    match i
    case 13 => 0 case 14 => 2 case 15 => 0 case 16 => 0 case 17 => 0 case 18 => 0
    case 19 => 0 case 20 => 0 case 21 => 13 case 22 => 0 case 23 => 0 case 24 => 0
    case _ => 0
  }

  function ANextRow2(i: nat): (link: nat)
    requires 26 <= i < 39
    ensures link <= i
  {
    match i
    case 26 => 0 case 27 => 7 case 28 => 0 case 29 => 0 case 30 => 0 case 31 => 0
    case 32 => 0 case 33 => 0 case 34 => 0 case 35 => 0 case 36 => 0 case 37 => 0
    case _ => 0
  }

  function ANextRow3(i: nat): (link: nat)
    requires 39 <= i < 52
    ensures link <= i
  {
    match i
    case 39 => 0 case 40 => 0 case 41 => 0 case 42 => 0 case 43 => 33 case 44 => 0
    case 45 => 21 case 46 => 0 case 47 => 0 case 48 => 0 case 49 => 0 case 50 => 0
    case _ => 50
  }

  function ANextRow4(i: nat): (link: nat)
    requires 52 <= i < 65
    ensures link <= i
  {
    match i
    case 52 => 0 case 53 => 43 case 54 => 3 case 55 => 47 case 56 => 0 case 57 => 0
    case 58 => 0 case 59 => 0 case 60 => 30 case 61 => 0 case 62 => 58 case 63 => 0
    case _ => 38
  }

  function ANextRow5(i: nat): (link: nat)
    requires 65 <= i < 78
    ensures link <= i
  {
    match i
    case 65 => 0 case 66 => 0 case 67 => 0 case 68 => 1 case 69 => 66 case 70 => 0
    case 71 => 0 case 72 => 67 case 73 => 0 case 74 => 41 case 75 => 0 case 76 => 0
    case _ => 0
  }

  function ANextRow6(i: nat): (link: nat)
    requires 78 <= i < 91
    ensures link <= i
  {
    match i
    case 78 => 0 case 79 => 0 case 80 => 0 case 81 => 49 case 82 => 65 case 83 => 0
    case 84 => 0 case 85 => 0 case 86 => 0 case 87 => 31 case 88 => 52 case 89 => 16
    case _ => 34
  }

  function ANextRow7(i: nat): (link: nat)
    requires 91 <= i < 104
    ensures link <= i
  {
    match i
    case 91 => 10 case 92 => 0 case 93 => 0 case 94 => 0 case 95 => 0 case 96 => 0
    case 97 => 0 case 98 => 0 case 99 => 11 case 100 => 72 case 101 => 79 case 102 => 0
    case _ => 8
  }

  function ANextRow8(i: nat): (link: nat)
    requires 104 <= i < 117
    ensures link <= i
  {
    match i
    case 104 => 0 case 105 => 104 case 106 => 98 case 107 => 0 case 108 => 107 case 109 => 0
    case 110 => 87 case 111 => 0 case 112 => 75 case 113 => 51 case 114 => 0 case 115 => 27
    case _ => 37
  }

  function ANextRow9(i: nat): (link: nat)
    requires 117 <= i < 124
    ensures link <= i
  {
    match i
    case 117 => 73 case 118 => 83 case 119 => 0 case 120 => 35 case 121 => 68 case 122 => 0
    case _ => 0
  }

  function ANext(i: nat): (link: nat)
    requires i < 124
    ensures link <= i
  {
    if i < 13 then ANextRow0(i) else
    if i < 26 then ANextRow1(i) else
    if i < 39 then ANextRow2(i) else
    if i < 52 then ANextRow3(i) else
    if i < 65 then ANextRow4(i) else
    if i < 78 then ANextRow5(i) else
    if i < 91 then ANextRow6(i) else
    if i < 104 then ANextRow7(i) else
    if i < 117 then ANextRow8(i) else
    ANextRow9(i)
  }

  /** aLen: the length of each keyword. */
  function ALenRow0(i: nat): (n: bv32)
    requires 0 <= i < 13
    ensures 2 <= n <= 17
  {
    match i
    case 0 => 7 case 1 => 7 case 2 => 5 case 3 => 4 case 4 => 6 case 5 => 4
    case 6 => 5 case 7 => 3 case 8 => 6 case 9 => 7 case 10 => 3 case 11 => 6
    case _ => 6
  }

  function ALenRow1(i: nat): (n: bv32)
    requires 13 <= i < 26
    ensures 2 <= n <= 17
  {
    match i
    case 13 => 7 case 14 => 7 case 15 => 3 case 16 => 8 case 17 => 2 case 18 => 6
    case 19 => 5 case 20 => 4 case 21 => 4 case 22 => 3 case 23 => 10 case 24 => 4
    case _ => 6
  }

  function ALenRow2(i: nat): (n: bv32)
    requires 26 <= i < 39
    ensures 2 <= n <= 17
  {
    match i
    case 26 => 11 case 27 => 6 case 28 => 2 case 29 => 7 case 30 => 5 case 31 => 5
    case 32 => 9 case 33 => 6 case 34 => 9 case 35 => 9 case 36 => 7 case 37 => 10
    case _ => 10
  }

  function ALenRow3(i: nat): (n: bv32)
    requires 39 <= i < 52
    ensures 2 <= n <= 17
  {
    match i
    case 39 => 4 case 40 => 6 case 41 => 2 case 42 => 3 case 43 => 9 case 44 => 4
    case 45 => 2 case 46 => 6 case 47 => 5 case 48 => 7 case 49 => 4 case 50 => 5
    case _ => 7
  }

  function ALenRow4(i: nat): (n: bv32)
    requires 52 <= i < 65
    ensures 2 <= n <= 17
  {
    match i
    case 52 => 6 case 53 => 6 case 54 => 5 case 55 => 6 case 56 => 5 case 57 => 5
    case 58 => 9 case 59 => 7 case 60 => 7 case 61 => 3 case 62 => 2 case 63 => 4
    case _ => 4
  }

  function ALenRow5(i: nat): (n: bv32)
    requires 65 <= i < 78
    ensures 2 <= n <= 17
  {
    match i
    case 65 => 7 case 66 => 3 case 67 => 6 case 68 => 4 case 69 => 7 case 70 => 6
    case 71 => 12 case 72 => 6 case 73 => 9 case 74 => 4 case 75 => 6 case 76 => 5
    case _ => 4
  }

  function ALenRow6(i: nat): (n: bv32)
    requires 78 <= i < 91
    ensures 2 <= n <= 17
  {
    match i
    case 78 => 7 case 79 => 6 case 80 => 5 case 81 => 6 case 82 => 7 case 83 => 5
    case 84 => 4 case 85 => 5 case 86 => 6 case 87 => 5 case 88 => 7 case 89 => 3
    case _ => 7
  }

  function ALenRow7(i: nat): (n: bv32)
    requires 91 <= i < 104
    ensures 2 <= n <= 17
  {
    match i
    case 91 => 13 case 92 => 2 case 93 => 2 case 94 => 4 case 95 => 6 case 96 => 6
    case 97 => 8 case 98 => 5 case 99 => 17 case 100 => 12 case 101 => 7 case 102 => 8
    case _ => 8
  }

  function ALenRow8(i: nat): (n: bv32)
    requires 104 <= i < 117
    ensures 2 <= n <= 17
  {
    match i
    case 104 => 2 case 105 => 4 case 106 => 4 case 107 => 4 case 108 => 4 case 109 => 4
    case 110 => 2 case 111 => 2 case 112 => 6 case 113 => 5 case 114 => 8 case 115 => 5
    case _ => 8
  }

  function ALenRow9(i: nat): (n: bv32)
    requires 117 <= i < 124
    ensures 2 <= n <= 17
  {
    match i
    case 117 => 3 case 118 => 5 case 119 => 5 case 120 => 6 case 121 => 4 case 122 => 9
    case _ => 3
  }

  function ALen(i: nat): (n: bv32)
    requires i < 124
    ensures 2 <= n <= 17
  {
    if i < 13 then ALenRow0(i) else
    if i < 26 then ALenRow1(i) else
    if i < 39 then ALenRow2(i) else
    if i < 52 then ALenRow3(i) else
    if i < 65 then ALenRow4(i) else
    if i < 78 then ALenRow5(i) else
    if i < 91 then ALenRow6(i) else
    if i < 104 then ALenRow7(i) else
    if i < 117 then ALenRow8(i) else
    ALenRow9(i)
  }

  /** aOffset: where each keyword starts in zText. */
  function AOffsetRow0(i: nat): (p: nat)
    requires 0 <= i < 13
    ensures p < TEXT_LENGTH
  {
    match i
    case 0 => 0 case 1 => 2 case 2 => 2 case 3 => 8 case 4 => 9 case 5 => 14
    case 6 => 16 case 7 => 20 case 8 => 23 case 9 => 25 case 10 => 25 case 11 => 29
    case _ => 33
  }

  function AOffsetRow1(i: nat): (p: nat)
    requires 13 <= i < 26
    ensures p < TEXT_LENGTH
  {
    match i
    case 13 => 36 case 14 => 41 case 15 => 46 case 16 => 48 case 17 => 53 case 18 => 54
    case 19 => 59 case 20 => 62 case 21 => 65 case 22 => 67 case 23 => 69 case 24 => 78
    case _ => 81
  }

  function AOffsetRow2(i: nat): (p: nat)
    requires 26 <= i < 39
    ensures p < TEXT_LENGTH
  {
    match i
    case 26 => 86 case 27 => 91 case 28 => 95 case 29 => 96 case 30 => 101 case 31 => 105
    case 32 => 109 case 33 => 117 case 34 => 122 case 35 => 128 case 36 => 136 case 37 => 142
    case _ => 152
  }

  function AOffsetRow3(i: nat): (p: nat)
    requires 39 <= i < 52
    ensures p < TEXT_LENGTH
  {
    match i
    case 39 => 159 case 40 => 162 case 41 => 162 case 42 => 165 case 43 => 167 case 44 => 167
    case 45 => 171 case 46 => 176 case 47 => 179 case 48 => 184 case 49 => 184 case 50 => 188
    case _ => 192
  }

  function AOffsetRow4(i: nat): (p: nat)
    requires 52 <= i < 65
    ensures p < TEXT_LENGTH
  {
    match i
    case 52 => 199 case 53 => 204 case 54 => 209 case 55 => 212 case 56 => 218 case 57 => 221
    case 58 => 225 case 59 => 234 case 60 => 240 case 61 => 240 case 62 => 240 case 63 => 243
    case _ => 246
  }

  function AOffsetRow5(i: nat): (p: nat)
    requires 65 <= i < 78
    ensures p < TEXT_LENGTH
  {
    match i
    case 65 => 250 case 66 => 251 case 67 => 255 case 68 => 261 case 69 => 265 case 70 => 272
    case 71 => 278 case 72 => 290 case 73 => 296 case 74 => 305 case 75 => 307 case 76 => 313
    case _ => 318
  }

  function AOffsetRow6(i: nat): (p: nat)
    requires 78 <= i < 91
    ensures p < TEXT_LENGTH
  {
    match i
    case 78 => 320 case 79 => 327 case 80 => 332 case 81 => 337 case 82 => 343 case 83 => 349
    case 84 => 354 case 85 => 358 case 86 => 361 case 87 => 367 case 88 => 371 case 89 => 378
    case _ => 380
  }

  function AOffsetRow7(i: nat): (p: nat)
    requires 91 <= i < 104
    ensures p < TEXT_LENGTH
  {
    match i
    case 91 => 387 case 92 => 389 case 93 => 391 case 94 => 400 case 95 => 404 case 96 => 410
    case 97 => 416 case 98 => 424 case 99 => 429 case 100 => 429 case 101 => 445 case 102 => 452
    case _ => 459
  }

  function AOffsetRow8(i: nat): (p: nat)
    requires 104 <= i < 117
    ensures p < TEXT_LENGTH
  {
    match i
    case 104 => 460 case 105 => 467 case 106 => 471 case 107 => 475 case 108 => 479 case 109 => 483
    case 110 => 486 case 111 => 488 case 112 => 490 case 113 => 496 case 114 => 500 case 115 => 508
    case _ => 513
  }

  function AOffsetRow9(i: nat): (p: nat)
    requires 117 <= i < 124
    ensures p < TEXT_LENGTH
  {
    match i
    case 117 => 521 case 118 => 524 case 119 => 529 case 120 => 534 case 121 => 540 case 122 => 544
    case _ => 549
  }

  function AOffset(i: nat): (p: nat)
    requires i < 124
    ensures p < TEXT_LENGTH
  {
    if i < 13 then AOffsetRow0(i) else
    if i < 26 then AOffsetRow1(i) else
    if i < 39 then AOffsetRow2(i) else
    if i < 52 then AOffsetRow3(i) else
    if i < 65 then AOffsetRow4(i) else
    if i < 78 then AOffsetRow5(i) else
    if i < 91 then AOffsetRow6(i) else
    if i < 104 then AOffsetRow7(i) else
    if i < 117 then AOffsetRow8(i) else
    AOffsetRow9(i)
  }

  /** aCode: the token code of each keyword, in the numbering of parse.h. */
  function ACodeRow0(i: nat): (code: nat)
    requires 0 <= i < 13
    ensures 0 < code < 256
  {
    match i
    case 0 => 93 case 1 => 56 case 2 => 140 case 3 => 70 case 4 => 42 case 5 => 72
    case 6 => 104 case 7 => 79 case 8 => 63 case 9 => 113 case 10 => 74 case 11 => 75
    case _ => 31
  }

  function ACodeRow1(i: nat): (code: nat)
    requires 13 <= i < 26
    ensures 0 < code < 256
  {
    match i
    case 13 => 2 case 14 => 77 case 15 => 142 case 16 => 69 case 17 => 24 case 18 => 119
    case 19 => 16 case 20 => 98 case 21 => 138 case 22 => 11 case 23 => 112 case 24 => 139
    case _ => 117
  }

  function ACodeRow2(i: nat): (code: nat)
    requires 26 <= i < 39
    ensures 0 < code < 256
  {
    match i
    case 26 => 6 case 27 => 58 case 28 => 107 case 29 => 98 case 30 => 141 case 31 => 83
    case 32 => 9 case 33 => 20 case 34 => 13 case 35 => 118 case 36 => 88 case 37 => 105
    case _ => 99
  }

  function ACodeRow3(i: nat): (code: nat)
    requires 39 <= i < 52
    ensures 0 < code < 256
  {
    match i
    case 39 => 131 case 40 => 81 case 41 => 80 case 42 => 111 case 43 => 21 case 44 => 21
    case 45 => 27 case 46 => 103 case 47 => 3 case 48 => 25 case 49 => 92 case 50 => 98
    case _ => 14
  }

  function ACodeRow4(i: nat): (code: nat)
    requires 52 <= i < 65
    ensures 0 < code < 256
  {
    match i
    case 52 => 62 case 53 => 128 case 54 => 127 case 55 => 110 case 56 => 5 case 57 => 98
    case 58 => 84 case 59 => 32 case 60 => 35 case 61 => 19 case 62 => 78 case 63 => 101
    case _ => 31
  }

  function ACodeRow5(i: nat): (code: nat)
    requires 65 <= i < 78
    ensures 0 < code < 256
  {
    match i
    case 65 => 65 case 66 => 61 case 67 => 109 case 68 => 136 case 69 => 53 case 70 => 17
    case 71 => 95 case 72 => 71 case 73 => 8 case 74 => 124 case 75 => 108 case 76 => 30
    case _ => 4
  }

  function ACodeRow6(i: nat): (code: nat)
    requires 78 <= i < 91
    ensures 0 < code < 256
  {
    match i
    case 78 => 60 case 79 => 82 case 80 => 57 case 81 => 120 case 82 => 91 case 83 => 129
    case 84 => 137 case 85 => 130 case 86 => 94 case 87 => 59 case 88 => 85 case 89 => 28
    case _ => 100
  }

  function ACodeRow7(i: nat): (code: nat)
    requires 91 <= i < 104
    ensures 0 < code < 256
  {
    match i
    case 91 => 106 case 92 => 15 case 93 => 33 case 94 => 66 case 95 => 67 case 96 => 10
    case 97 => 68 case 98 => 98 case 99 => 95 case 100 => 95 case 101 => 102 case 102 => 7
    case _ => 121
  }

  function ACodeRow8(i: nat): (code: nat)
    requires 104 <= i < 117
    ensures 0 < code < 256
  {
    match i
    case 104 => 29 case 105 => 114 case 106 => 73 case 107 => 123 case 108 => 98 case 109 => 31
    case 110 => 64 case 111 => 18 case 112 => 34 case 113 => 126 case 114 => 86 case 115 => 98
    case _ => 12
  }

  function ACodeRow9(i: nat): (code: nat)
    requires 117 <= i < 124
    ensures 0 < code < 256
  {
    match i
    case 117 => 87 case 118 => 115 case 119 => 125 case 120 => 89 case 121 => 90 case 122 => 76
    case _ => 116
  }

  function ACode(i: nat): (code: nat)
    requires i < 124
    ensures 0 < code < 256
  {
    if i < 13 then ACodeRow0(i) else
    if i < 26 then ACodeRow1(i) else
    if i < 39 then ACodeRow2(i) else
    if i < 52 then ACodeRow3(i) else
    if i < 65 then ACodeRow4(i) else
    if i < 78 then ACodeRow5(i) else
    if i < 91 then ACodeRow6(i) else
    if i < 104 then ACodeRow7(i) else
    if i < 117 then ACodeRow8(i) else
    ACodeRow9(i)
  }
}
