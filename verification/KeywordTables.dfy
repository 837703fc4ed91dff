/** The generated tables of the keyword hash, row by row, and the keywords they pack. */
module KeywordTables {

  const TK_ID: nat := 55
  const TEXT: nat := 553
  const BUCKETS: bv32 := 127
  const KEYWORDS: nat := 124

  /** zText: the keywords, overlapping. */
  function Text(j: nat): char {
    if j < 18 then Text0(j) else if j < 36 then Text1(j) else if j < 54 then Text2(j) else
    if j < 72 then Text3(j) else if j < 90 then Text4(j) else if j < 108 then Text5(j) else
    if j < 126 then Text6(j) else if j < 144 then Text7(j) else if j < 162 then Text8(j) else
    if j < 180 then Text9(j) else if j < 198 then Text10(j) else if j < 216 then Text11(j) else
    if j < 234 then Text12(j) else if j < 252 then Text13(j) else if j < 270 then Text14(j) else
    if j < 288 then Text15(j) else if j < 306 then Text16(j) else if j < 324 then Text17(j) else
    if j < 342 then Text18(j) else if j < 360 then Text19(j) else if j < 378 then Text20(j) else
    if j < 396 then Text21(j) else if j < 414 then Text22(j) else if j < 432 then Text23(j) else
    if j < 450 then Text24(j) else if j < 468 then Text25(j) else if j < 486 then Text26(j) else
    if j < 504 then Text27(j) else if j < 522 then Text28(j) else if j < 540 then Text29(j) else
    Text30(j)
  }

  function Text0(j: nat): char {
    match j
    case 0 => 'R' case 1 => 'E' case 2 => 'I' case 3 => 'N' case 4 => 'D' case 5 => 'E' case 6 => 'X'
    case 7 => 'E' case 8 => 'D' case 9 => 'E' case 10 => 'S' case 11 => 'C' case 12 => 'A' case 13 => 'P'
    case 14 => 'E' case 15 => 'A' case 16 => 'C' case _ => 'H'
  }

  function Text1(j: nat): char {
    match j
    case 18 => 'E' case 19 => 'C' case 20 => 'K' case 21 => 'E' case 22 => 'Y' case 23 => 'B' case 24 => 'E'
    case 25 => 'F' case 26 => 'O' case 27 => 'R' case 28 => 'E' case 29 => 'I' case 30 => 'G' case 31 => 'N'
    case 32 => 'O' case 33 => 'R' case 34 => 'E' case _ => 'G'
  }

  function Text2(j: nat): char {
    match j
    case 36 => 'E' case 37 => 'X' case 38 => 'P' case 39 => 'L' case 40 => 'A' case 41 => 'I' case 42 => 'N'
    case 43 => 'S' case 44 => 'T' case 45 => 'E' case 46 => 'A' case 47 => 'D' case 48 => 'D' case 49 => 'A'
    case 50 => 'T' case 51 => 'A' case 52 => 'B' case _ => 'A'
  }

  function Text3(j: nat): char {
    match j
    case 54 => 'S' case 55 => 'E' case 56 => 'L' case 57 => 'E' case 58 => 'C' case 59 => 'T' case 60 => 'A'
    case 61 => 'B' case 62 => 'L' case 63 => 'E' case 64 => 'F' case 65 => 'T' case 66 => 'H' case 67 => 'E'
    case 68 => 'N' case 69 => 'D' case 70 => 'E' case _ => 'F'
  }

  function Text4(j: nat): char {
    match j
    case 72 => 'E' case 73 => 'R' case 74 => 'R' case 75 => 'A' case 76 => 'B' case 77 => 'L' case 78 => 'E'
    case 79 => 'L' case 80 => 'S' case 81 => 'E' case 82 => 'X' case 83 => 'C' case 84 => 'E' case 85 => 'P'
    case 86 => 'T' case 87 => 'R' case 88 => 'A' case _ => 'N'
  }

  function Text5(j: nat): char {
    match j
    case 90 => 'S' case 91 => 'A' case 92 => 'C' case 93 => 'T' case 94 => 'I' case 95 => 'O' case 96 => 'N'
    case 97 => 'A' case 98 => 'T' case 99 => 'U' case 100 => 'R' case 101 => 'A' case 102 => 'L' case 103 => 'T'
    case 104 => 'E' case 105 => 'R' case 106 => 'A' case _ => 'I'
  }

  function Text6(j: nat): char {
    match j
    case 108 => 'S' case 109 => 'E' case 110 => 'X' case 111 => 'C' case 112 => 'L' case 113 => 'U' case 114 => 'S'
    case 115 => 'I' case 116 => 'V' case 117 => 'E' case 118 => 'X' case 119 => 'I' case 120 => 'S' case 121 => 'T'
    case 122 => 'S' case 123 => 'A' case 124 => 'V' case _ => 'E'
  }

  function Text7(j: nat): char {
    match j
    case 126 => 'P' case 127 => 'O' case 128 => 'I' case 129 => 'N' case 130 => 'T' case 131 => 'E' case 132 => 'R'
    case 133 => 'S' case 134 => 'E' case 135 => 'C' case 136 => 'T' case 137 => 'R' case 138 => 'I' case 139 => 'G'
    case 140 => 'G' case 141 => 'E' case 142 => 'R' case _ => 'E'
  }

  function Text8(j: nat): char {
    match j
    case 144 => 'F' case 145 => 'E' case 146 => 'R' case 147 => 'E' case 148 => 'N' case 149 => 'C' case 150 => 'E'
    case 151 => 'S' case 152 => 'C' case 153 => 'O' case 154 => 'N' case 155 => 'S' case 156 => 'T' case 157 => 'R'
    case 158 => 'A' case 159 => 'I' case 160 => 'N' case _ => 'T'
  }

  function Text9(j: nat): char {
    match j
    case 162 => 'O' case 163 => 'F' case 164 => 'F' case 165 => 'S' case 166 => 'E' case 167 => 'T' case 168 => 'E'
    case 169 => 'M' case 170 => 'P' case 171 => 'O' case 172 => 'R' case 173 => 'A' case 174 => 'R' case 175 => 'Y'
    case 176 => 'U' case 177 => 'N' case 178 => 'I' case _ => 'Q'
  }

  function Text10(j: nat): char {
    match j
    case 180 => 'U' case 181 => 'E' case 182 => 'R' case 183 => 'Y' case 184 => 'W' case 185 => 'I' case 186 => 'T'
    case 187 => 'H' case 188 => 'O' case 189 => 'U' case 190 => 'T' case 191 => 'E' case 192 => 'R' case 193 => 'E'
    case 194 => 'L' case 195 => 'E' case 196 => 'A' case _ => 'S'
  }

  function Text11(j: nat): char {
    match j
    case 198 => 'E' case 199 => 'A' case 200 => 'T' case 201 => 'T' case 202 => 'A' case 203 => 'C' case 204 => 'H'
    case 205 => 'A' case 206 => 'V' case 207 => 'I' case 208 => 'N' case 209 => 'G' case 210 => 'R' case 211 => 'O'
    case 212 => 'U' case 213 => 'P' case 214 => 'D' case _ => 'A'
  }

  function Text12(j: nat): char {
    match j
    case 216 => 'T' case 217 => 'E' case 218 => 'B' case 219 => 'E' case 220 => 'G' case 221 => 'I' case 222 => 'N'
    case 223 => 'N' case 224 => 'E' case 225 => 'R' case 226 => 'E' case 227 => 'C' case 228 => 'U' case 229 => 'R'
    case 230 => 'S' case 231 => 'I' case 232 => 'V' case _ => 'E'
  }

  function Text13(j: nat): char {
    match j
    case 234 => 'B' case 235 => 'E' case 236 => 'T' case 237 => 'W' case 238 => 'E' case 239 => 'E' case 240 => 'N'
    case 241 => 'O' case 242 => 'T' case 243 => 'N' case 244 => 'U' case 245 => 'L' case 246 => 'L' case 247 => 'I'
    case 248 => 'K' case 249 => 'E' case 250 => 'C' case _ => 'A'
  }

  function Text14(j: nat): char {
    match j
    case 252 => 'S' case 253 => 'C' case 254 => 'A' case 255 => 'D' case 256 => 'E' case 257 => 'L' case 258 => 'E'
    case 259 => 'T' case 260 => 'E' case 261 => 'C' case 262 => 'A' case 263 => 'S' case 264 => 'E' case 265 => 'C'
    case 266 => 'O' case 267 => 'L' case 268 => 'L' case _ => 'A'
  }

  function Text15(j: nat): char {
    match j
    case 270 => 'T' case 271 => 'E' case 272 => 'C' case 273 => 'R' case 274 => 'E' case 275 => 'A' case 276 => 'T'
    case 277 => 'E' case 278 => 'C' case 279 => 'U' case 280 => 'R' case 281 => 'R' case 282 => 'E' case 283 => 'N'
    case 284 => 'T' case 285 => '_' case 286 => 'D' case _ => 'A'
  }

  function Text16(j: nat): char {
    match j
    case 288 => 'T' case 289 => 'E' case 290 => 'D' case 291 => 'E' case 292 => 'T' case 293 => 'A' case 294 => 'C'
    case 295 => 'H' case 296 => 'I' case 297 => 'M' case 298 => 'M' case 299 => 'E' case 300 => 'D' case 301 => 'I'
    case 302 => 'A' case 303 => 'T' case 304 => 'E' case _ => 'J'
  }

  function Text17(j: nat): char {
    match j
    case 306 => 'O' case 307 => 'I' case 308 => 'N' case 309 => 'S' case 310 => 'E' case 311 => 'R' case 312 => 'T'
    case 313 => 'M' case 314 => 'A' case 315 => 'T' case 316 => 'C' case 317 => 'H' case 318 => 'P' case 319 => 'L'
    case 320 => 'A' case 321 => 'N' case 322 => 'A' case _ => 'L'
  }

  function Text18(j: nat): char {
    match j
    case 324 => 'Y' case 325 => 'Z' case 326 => 'E' case 327 => 'P' case 328 => 'R' case 329 => 'A' case 330 => 'G'
    case 331 => 'M' case 332 => 'A' case 333 => 'B' case 334 => 'O' case 335 => 'R' case 336 => 'T' case 337 => 'V'
    case 338 => 'A' case 339 => 'L' case 340 => 'U' case _ => 'E'
  }

  function Text19(j: nat): char {
    match j
    case 342 => 'S' case 343 => 'V' case 344 => 'I' case 345 => 'R' case 346 => 'T' case 347 => 'U' case 348 => 'A'
    case 349 => 'L' case 350 => 'I' case 351 => 'M' case 352 => 'I' case 353 => 'T' case 354 => 'W' case 355 => 'H'
    case 356 => 'E' case 357 => 'N' case 358 => 'W' case _ => 'H'
  }

  function Text20(j: nat): char {
    match j
    case 360 => 'E' case 361 => 'R' case 362 => 'E' case 363 => 'N' case 364 => 'A' case 365 => 'M' case 366 => 'E'
    case 367 => 'A' case 368 => 'F' case 369 => 'T' case 370 => 'E' case 371 => 'R' case 372 => 'E' case 373 => 'P'
    case 374 => 'L' case 375 => 'A' case 376 => 'C' case _ => 'E'
  }

  function Text21(j: nat): char {
    match j
    case 378 => 'A' case 379 => 'N' case 380 => 'D' case 381 => 'E' case 382 => 'F' case 383 => 'A' case 384 => 'U'
    case 385 => 'L' case 386 => 'T' case 387 => 'A' case 388 => 'U' case 389 => 'T' case 390 => 'O' case 391 => 'I'
    case 392 => 'N' case 393 => 'C' case 394 => 'R' case _ => 'E'
  }

  function Text22(j: nat): char {
    match j
    case 396 => 'M' case 397 => 'E' case 398 => 'N' case 399 => 'T' case 400 => 'C' case 401 => 'A' case 402 => 'S'
    case 403 => 'T' case 404 => 'C' case 405 => 'O' case 406 => 'L' case 407 => 'U' case 408 => 'M' case 409 => 'N'
    case 410 => 'C' case 411 => 'O' case 412 => 'M' case _ => 'M'
  }

  function Text23(j: nat): char {
    match j
    case 414 => 'I' case 415 => 'T' case 416 => 'C' case 417 => 'O' case 418 => 'N' case 419 => 'F' case 420 => 'L'
    case 421 => 'I' case 422 => 'C' case 423 => 'T' case 424 => 'C' case 425 => 'R' case 426 => 'O' case 427 => 'S'
    case 428 => 'S' case 429 => 'C' case 430 => 'U' case _ => 'R'
  }

  function Text24(j: nat): char {
    match j
    case 432 => 'R' case 433 => 'E' case 434 => 'N' case 435 => 'T' case 436 => '_' case 437 => 'T' case 438 => 'I'
    case 439 => 'M' case 440 => 'E' case 441 => 'S' case 442 => 'T' case 443 => 'A' case 444 => 'M' case 445 => 'P'
    case 446 => 'R' case 447 => 'I' case 448 => 'M' case _ => 'A'
  }

  function Text25(j: nat): char {
    match j
    case 450 => 'R' case 451 => 'Y' case 452 => 'D' case 453 => 'E' case 454 => 'F' case 455 => 'E' case 456 => 'R'
    case 457 => 'R' case 458 => 'E' case 459 => 'D' case 460 => 'I' case 461 => 'S' case 462 => 'T' case 463 => 'I'
    case 464 => 'N' case 465 => 'C' case 466 => 'T' case _ => 'D'
  }

  function Text26(j: nat): char {
    match j
    case 468 => 'R' case 469 => 'O' case 470 => 'P' case 471 => 'F' case 472 => 'A' case 473 => 'I' case 474 => 'L'
    case 475 => 'F' case 476 => 'R' case 477 => 'O' case 478 => 'M' case 479 => 'F' case 480 => 'U' case 481 => 'L'
    case 482 => 'L' case 483 => 'G' case 484 => 'L' case _ => 'O'
  }

  function Text27(j: nat): char {
    match j
    case 486 => 'B' case 487 => 'Y' case 488 => 'I' case 489 => 'F' case 490 => 'I' case 491 => 'S' case 492 => 'N'
    case 493 => 'U' case 494 => 'L' case 495 => 'L' case 496 => 'O' case 497 => 'R' case 498 => 'D' case 499 => 'E'
    case 500 => 'R' case 501 => 'E' case 502 => 'S' case _ => 'T'
  }

  function Text28(j: nat): char {
    match j
    case 504 => 'R' case 505 => 'I' case 506 => 'C' case 507 => 'T' case 508 => 'R' case 509 => 'I' case 510 => 'G'
    case 511 => 'H' case 512 => 'T' case 513 => 'R' case 514 => 'O' case 515 => 'L' case 516 => 'L' case 517 => 'B'
    case 518 => 'A' case 519 => 'C' case 520 => 'K' case _ => 'R'
  }

  function Text29(j: nat): char {
    match j
    case 522 => 'O' case 523 => 'W' case 524 => 'U' case 525 => 'N' case 526 => 'I' case 527 => 'O' case 528 => 'N'
    case 529 => 'U' case 530 => 'S' case 531 => 'I' case 532 => 'N' case 533 => 'G' case 534 => 'V' case 535 => 'A'
    case 536 => 'C' case 537 => 'U' case 538 => 'U' case _ => 'M'
  }

  function Text30(j: nat): char {
    match j
    case 540 => 'V' case 541 => 'I' case 542 => 'E' case 543 => 'W' case 544 => 'I' case 545 => 'N' case 546 => 'I'
    case 547 => 'T' case 548 => 'I' case 549 => 'A' case 550 => 'L' case 551 => 'L' case _ => 'Y'
  }

  /** Index plus one of the first keyword of each bucket. */
  function AHash(h: bv32): nat
    ensures AHash(h) <= KEYWORDS
  {
    if h < 13 then
      match h {
        case 0 => 76 case 1 => 105 case 2 => 117 case 3 => 74 case 4 => 0 case 5 => 45 case 6 => 0
        case 7 => 0 case 8 => 82 case 9 => 0 case 10 => 77 case 11 => 0 case _ => 0
      }
    else if h < 26 then
      match h {
        case 13 => 42 case 14 => 12 case 15 => 78 case 16 => 15 case 17 => 0 case 18 => 116 case 19 => 85
        case 20 => 54 case 21 => 112 case 22 => 0 case 23 => 19 case 24 => 0 case _ => 0
      }
    else if h < 39 then
      match h {
        case 26 => 121 case 27 => 0 case 28 => 119 case 29 => 115 case 30 => 0 case 31 => 22 case 32 => 93
        case 33 => 0 case 34 => 9 case 35 => 0 case 36 => 0 case 37 => 70 case _ => 71
      }
    else if h < 52 then
      match h {
        case 39 => 0 case 40 => 69 case 41 => 6 case 42 => 0 case 43 => 48 case 44 => 90 case 45 => 102
        case 46 => 0 case 47 => 118 case 48 => 101 case 49 => 0 case 50 => 0 case _ => 44
      }
    else if h < 65 then
      match h {
        case 52 => 0 case 53 => 103 case 54 => 24 case 55 => 0 case 56 => 17 case 57 => 0 case 58 => 122
        case 59 => 53 case 60 => 23 case 61 => 0 case 62 => 5 case 63 => 110 case _ => 25
      }
    else if h < 78 then
      match h {
        case 65 => 96 case 66 => 0 case 67 => 0 case 68 => 124 case 69 => 106 case 70 => 60 case 71 => 123
        case 72 => 57 case 73 => 28 case 74 => 55 case 75 => 0 case 76 => 91 case _ => 0
      }
    else if h < 91 then
      match h {
        case 78 => 100 case 79 => 26 case 80 => 0 case 81 => 99 case 82 => 0 case 83 => 0 case 84 => 0
        case 85 => 95 case 86 => 92 case 87 => 97 case 88 => 88 case 89 => 109 case _ => 14
      }
    else if h < 104 then
      match h {
        case 91 => 39 case 92 => 108 case 93 => 0 case 94 => 81 case 95 => 0 case 96 => 18 case 97 => 89
        case 98 => 111 case 99 => 32 case 100 => 0 case 101 => 120 case 102 => 80 case _ => 113
      }
    else if h < 117 then
      match h {
        case 104 => 62 case 105 => 46 case 106 => 84 case 107 => 0 case 108 => 0 case 109 => 94 case 110 => 40
        case 111 => 59 case 112 => 114 case 113 => 0 case 114 => 36 case 115 => 0 case _ => 0
      }
    else
      match h {
        case 117 => 29 case 118 => 0 case 119 => 86 case 120 => 63 case 121 => 64 case 122 => 0 case 123 => 20
        case 124 => 61 case 125 => 0 case _ => 56
      }
  }

  /** Index plus one of the next keyword of the same bucket, always an earlier one. */
  function ANext(i: nat): nat
    requires i < 124
    ensures ANext(i) <= i
  {
    if i < 13 then
      match i {
        case 0 => 0 case 1 => 0 case 2 => 0 case 3 => 0 case 4 => 4 case 5 => 0 case 6 => 0
        case 7 => 0 case 8 => 0 case 9 => 0 case 10 => 0 case 11 => 0 case _ => 0
      }
    else if i < 26 then
      match i {
        case 13 => 0 case 14 => 2 case 15 => 0 case 16 => 0 case 17 => 0 case 18 => 0 case 19 => 0
        case 20 => 0 case 21 => 13 case 22 => 0 case 23 => 0 case 24 => 0 case _ => 0
      }
    else if i < 39 then
      match i {
        case 26 => 0 case 27 => 7 case 28 => 0 case 29 => 0 case 30 => 0 case 31 => 0 case 32 => 0
        case 33 => 0 case 34 => 0 case 35 => 0 case 36 => 0 case 37 => 0 case _ => 0
      }
    else if i < 52 then
      match i {
        case 39 => 0 case 40 => 0 case 41 => 0 case 42 => 0 case 43 => 33 case 44 => 0 case 45 => 21
        case 46 => 0 case 47 => 0 case 48 => 0 case 49 => 0 case 50 => 0 case _ => 50
      }
    else if i < 65 then
      match i {
        case 52 => 0 case 53 => 43 case 54 => 3 case 55 => 47 case 56 => 0 case 57 => 0 case 58 => 0
        case 59 => 0 case 60 => 30 case 61 => 0 case 62 => 58 case 63 => 0 case _ => 38
      }
    else if i < 78 then
      match i {
        case 65 => 0 case 66 => 0 case 67 => 0 case 68 => 1 case 69 => 66 case 70 => 0 case 71 => 0
        case 72 => 67 case 73 => 0 case 74 => 41 case 75 => 0 case 76 => 0 case _ => 0
      }
    else if i < 91 then
      match i {
        case 78 => 0 case 79 => 0 case 80 => 0 case 81 => 49 case 82 => 65 case 83 => 0 case 84 => 0
        case 85 => 0 case 86 => 0 case 87 => 31 case 88 => 52 case 89 => 16 case _ => 34
      }
    else if i < 104 then
      match i {
        case 91 => 10 case 92 => 0 case 93 => 0 case 94 => 0 case 95 => 0 case 96 => 0 case 97 => 0
        case 98 => 0 case 99 => 11 case 100 => 72 case 101 => 79 case 102 => 0 case _ => 8
      }
    else if i < 117 then
      match i {
        case 104 => 0 case 105 => 104 case 106 => 98 case 107 => 0 case 108 => 107 case 109 => 0 case 110 => 87
        case 111 => 0 case 112 => 75 case 113 => 51 case 114 => 0 case 115 => 27 case _ => 37
      }
    else
      match i {
        case 117 => 73 case 118 => 83 case 119 => 0 case 120 => 35 case 121 => 68 case 122 => 0 case _ => 0
      }
  }

  /** Length of each keyword. */
  function ALen(i: nat): nat
    requires i < 124
    ensures 2 <= ALen(i) <= 17
  {
    if i < 13 then
      match i {
        case 0 => 7 case 1 => 7 case 2 => 5 case 3 => 4 case 4 => 6 case 5 => 4 case 6 => 5
        case 7 => 3 case 8 => 6 case 9 => 7 case 10 => 3 case 11 => 6 case _ => 6
      }
    else if i < 26 then
      match i {
        case 13 => 7 case 14 => 7 case 15 => 3 case 16 => 8 case 17 => 2 case 18 => 6 case 19 => 5
        case 20 => 4 case 21 => 4 case 22 => 3 case 23 => 10 case 24 => 4 case _ => 6
      }
    else if i < 39 then
      match i {
        case 26 => 11 case 27 => 6 case 28 => 2 case 29 => 7 case 30 => 5 case 31 => 5 case 32 => 9
        case 33 => 6 case 34 => 9 case 35 => 9 case 36 => 7 case 37 => 10 case _ => 10
      }
    else if i < 52 then
      match i {
        case 39 => 4 case 40 => 6 case 41 => 2 case 42 => 3 case 43 => 9 case 44 => 4 case 45 => 2
        case 46 => 6 case 47 => 5 case 48 => 7 case 49 => 4 case 50 => 5 case _ => 7
      }
    else if i < 65 then
      match i {
        case 52 => 6 case 53 => 6 case 54 => 5 case 55 => 6 case 56 => 5 case 57 => 5 case 58 => 9
        case 59 => 7 case 60 => 7 case 61 => 3 case 62 => 2 case 63 => 4 case _ => 4
      }
    else if i < 78 then
      match i {
        case 65 => 7 case 66 => 3 case 67 => 6 case 68 => 4 case 69 => 7 case 70 => 6 case 71 => 12
        case 72 => 6 case 73 => 9 case 74 => 4 case 75 => 6 case 76 => 5 case _ => 4
      }
    else if i < 91 then
      match i {
        case 78 => 7 case 79 => 6 case 80 => 5 case 81 => 6 case 82 => 7 case 83 => 5 case 84 => 4
        case 85 => 5 case 86 => 6 case 87 => 5 case 88 => 7 case 89 => 3 case _ => 7
      }
    else if i < 104 then
      match i {
        case 91 => 13 case 92 => 2 case 93 => 2 case 94 => 4 case 95 => 6 case 96 => 6 case 97 => 8
        case 98 => 5 case 99 => 17 case 100 => 12 case 101 => 7 case 102 => 8 case _ => 8
      }
    else if i < 117 then
      match i {
        case 104 => 2 case 105 => 4 case 106 => 4 case 107 => 4 case 108 => 4 case 109 => 4 case 110 => 2
        case 111 => 2 case 112 => 6 case 113 => 5 case 114 => 8 case 115 => 5 case _ => 8
      }
    else
      match i {
        case 117 => 3 case 118 => 5 case 119 => 5 case 120 => 6 case 121 => 4 case 122 => 9 case _ => 3
      }
  }

  /** Where each keyword starts in the text. */
  function AOffset(i: nat): nat
    requires i < 124
    ensures AOffset(i) + 4 <= TEXT || i == 123
  {
    if i < 13 then
      match i {
        case 0 => 0 case 1 => 2 case 2 => 2 case 3 => 8 case 4 => 9 case 5 => 14 case 6 => 16
        case 7 => 20 case 8 => 23 case 9 => 25 case 10 => 25 case 11 => 29 case _ => 33
      }
    else if i < 26 then
      match i {
        case 13 => 36 case 14 => 41 case 15 => 46 case 16 => 48 case 17 => 53 case 18 => 54 case 19 => 59
        case 20 => 62 case 21 => 65 case 22 => 67 case 23 => 69 case 24 => 78 case _ => 81
      }
    else if i < 39 then
      match i {
        case 26 => 86 case 27 => 91 case 28 => 95 case 29 => 96 case 30 => 101 case 31 => 105 case 32 => 109
        case 33 => 117 case 34 => 122 case 35 => 128 case 36 => 136 case 37 => 142 case _ => 152
      }
    else if i < 52 then
      match i {
        case 39 => 159 case 40 => 162 case 41 => 162 case 42 => 165 case 43 => 167 case 44 => 167 case 45 => 171
        case 46 => 176 case 47 => 179 case 48 => 184 case 49 => 184 case 50 => 188 case _ => 192
      }
    else if i < 65 then
      match i {
        case 52 => 199 case 53 => 204 case 54 => 209 case 55 => 212 case 56 => 218 case 57 => 221 case 58 => 225
        case 59 => 234 case 60 => 240 case 61 => 240 case 62 => 240 case 63 => 243 case _ => 246
      }
    else if i < 78 then
      match i {
        case 65 => 250 case 66 => 251 case 67 => 255 case 68 => 261 case 69 => 265 case 70 => 272 case 71 => 278
        case 72 => 290 case 73 => 296 case 74 => 305 case 75 => 307 case 76 => 313 case _ => 318
      }
    else if i < 91 then
      match i {
        case 78 => 320 case 79 => 327 case 80 => 332 case 81 => 337 case 82 => 343 case 83 => 349 case 84 => 354
        case 85 => 358 case 86 => 361 case 87 => 367 case 88 => 371 case 89 => 378 case _ => 380
      }
    else if i < 104 then
      match i {
        case 91 => 387 case 92 => 389 case 93 => 391 case 94 => 400 case 95 => 404 case 96 => 410 case 97 => 416
        case 98 => 424 case 99 => 429 case 100 => 429 case 101 => 445 case 102 => 452 case _ => 459
      }
    else if i < 117 then
      match i {
        case 104 => 460 case 105 => 467 case 106 => 471 case 107 => 475 case 108 => 479 case 109 => 483 case 110 => 486
        case 111 => 488 case 112 => 490 case 113 => 496 case 114 => 500 case 115 => 508 case _ => 513
      }
    else
      match i {
        case 117 => 521 case 118 => 524 case 119 => 529 case 120 => 534 case 121 => 540 case 122 => 544 case _ => 549
      }
  }

  /** Token code of each keyword. */
  function ACode(i: nat): nat
    requires i < 124
  {
    if i < 13 then
      match i {
        case 0 => 93 case 1 => 56 case 2 => 140 case 3 => 70 case 4 => 42 case 5 => 72 case 6 => 104
        case 7 => 79 case 8 => 63 case 9 => 113 case 10 => 74 case 11 => 75 case _ => 31
      }
    else if i < 26 then
      match i {
        case 13 => 2 case 14 => 77 case 15 => 142 case 16 => 69 case 17 => 24 case 18 => 119 case 19 => 16
        case 20 => 98 case 21 => 138 case 22 => 11 case 23 => 112 case 24 => 139 case _ => 117
      }
    else if i < 39 then
      match i {
        case 26 => 6 case 27 => 58 case 28 => 107 case 29 => 98 case 30 => 141 case 31 => 83 case 32 => 9
        case 33 => 20 case 34 => 13 case 35 => 118 case 36 => 88 case 37 => 105 case _ => 99
      }
    else if i < 52 then
      match i {
        case 39 => 131 case 40 => 81 case 41 => 80 case 42 => 111 case 43 => 21 case 44 => 21 case 45 => 27
        case 46 => 103 case 47 => 3 case 48 => 25 case 49 => 92 case 50 => 98 case _ => 14
      }
    else if i < 65 then
      match i {
        case 52 => 62 case 53 => 128 case 54 => 127 case 55 => 110 case 56 => 5 case 57 => 98 case 58 => 84
        case 59 => 32 case 60 => 35 case 61 => 19 case 62 => 78 case 63 => 101 case _ => 31
      }
    else if i < 78 then
      match i {
        case 65 => 65 case 66 => 61 case 67 => 109 case 68 => 136 case 69 => 53 case 70 => 17 case 71 => 95
        case 72 => 71 case 73 => 8 case 74 => 124 case 75 => 108 case 76 => 30 case _ => 4
      }
    else if i < 91 then
      match i {
        case 78 => 60 case 79 => 82 case 80 => 57 case 81 => 120 case 82 => 91 case 83 => 129 case 84 => 137
        case 85 => 130 case 86 => 94 case 87 => 59 case 88 => 85 case 89 => 28 case _ => 100
      }
    else if i < 104 then
      match i {
        case 91 => 106 case 92 => 15 case 93 => 33 case 94 => 66 case 95 => 67 case 96 => 10 case 97 => 68
        case 98 => 98 case 99 => 95 case 100 => 95 case 101 => 102 case 102 => 7 case _ => 121
      }
    else if i < 117 then
      match i {
        case 104 => 29 case 105 => 114 case 106 => 73 case 107 => 123 case 108 => 98 case 109 => 31 case 110 => 64
        case 111 => 18 case 112 => 34 case 113 => 126 case 114 => 86 case 115 => 98 case _ => 12
      }
    else
      match i {
        case 117 => 87 case 118 => 115 case 119 => 125 case 120 => 89 case 121 => 90 case 122 => 76 case _ => 116
      }
  }

  /** The keywords, one by one. */
  function Word(i: nat): string
    requires i < 124
  {
    if i < 12 then
      match i {
        case 0 => "REINDEX" case 1 => "INDEXED" case 2 => "INDEX" case 3 => "DESC"
        case 4 => "ESCAPE" case 5 => "EACH" case 6 => "CHECK" case 7 => "KEY"
        case 8 => "BEFORE" case 9 => "FOREIGN" case 10 => "FOR" case _ => "IGNORE"
      }
    else if i < 24 then
      match i {
        case 12 => "REGEXP" case 13 => "EXPLAIN" case 14 => "INSTEAD" case 15 => "ADD"
        case 16 => "DATABASE" case 17 => "AS" case 18 => "SELECT" case 19 => "TABLE"
        case 20 => "LEFT" case 21 => "THEN" case 22 => "END" case _ => "DEFERRABLE"
      }
    else if i < 36 then
      match i {
        case 24 => "ELSE" case 25 => "EXCEPT" case 26 => "TRANSACTION" case 27 => "ACTION"
        case 28 => "ON" case 29 => "NATURAL" case 30 => "ALTER" case 31 => "RAISE"
        case 32 => "EXCLUSIVE" case 33 => "EXISTS" case 34 => "SAVEPOINT" case _ => "INTERSECT"
      }
    else if i < 48 then
      match i {
        case 36 => "TRIGGER" case 37 => "REFERENCES" case 38 => "CONSTRAINT" case 39 => "INTO"
        case 40 => "OFFSET" case 41 => "OF" case 42 => "SET" case 43 => "TEMPORARY"
        case 44 => "TEMP" case 45 => "OR" case 46 => "UNIQUE" case _ => "QUERY"
      }
    else if i < 60 then
      match i {
        case 48 => "WITHOUT" case 49 => "WITH" case 50 => "OUTER" case 51 => "RELEASE"
        case 52 => "ATTACH" case 53 => "HAVING" case 54 => "GROUP" case 55 => "UPDATE"
        case 56 => "BEGIN" case 57 => "INNER" case 58 => "RECURSIVE" case _ => "BETWEEN"
      }
    else if i < 72 then
      match i {
        case 60 => "NOTNULL" case 61 => "NOT" case 62 => "NO" case 63 => "NULL"
        case 64 => "LIKE" case 65 => "CASCADE" case 66 => "ASC" case 67 => "DELETE"
        case 68 => "CASE" case 69 => "COLLATE" case 70 => "CREATE" case _ => "CURRENT_DATE"
      }
    else if i < 84 then
      match i {
        case 72 => "DETACH" case 73 => "IMMEDIATE" case 74 => "JOIN" case 75 => "INSERT"
        case 76 => "MATCH" case 77 => "PLAN" case 78 => "ANALYZE" case 79 => "PRAGMA"
        case 80 => "ABORT" case 81 => "VALUES" case 82 => "VIRTUAL" case _ => "LIMIT"
      }
    else if i < 96 then
      match i {
        case 84 => "WHEN" case 85 => "WHERE" case 86 => "RENAME" case 87 => "AFTER"
        case 88 => "REPLACE" case 89 => "AND" case 90 => "DEFAULT" case 91 => "AUTOINCREMENT"
        case 92 => "TO" case 93 => "IN" case 94 => "CAST" case _ => "COLUMN"
      }
    else if i < 108 then
      match i {
        case 96 => "COMMIT" case 97 => "CONFLICT" case 98 => "CROSS" case 99 => "CURRENT_TIMESTAMP"
        case 100 => "CURRENT_TIME" case 101 => "PRIMARY" case 102 => "DEFERRED" case 103 => "DISTINCT"
        case 104 => "IS" case 105 => "DROP" case 106 => "FAIL" case _ => "FROM"
      }
    else if i < 120 then
      match i {
        case 108 => "FULL" case 109 => "GLOB" case 110 => "BY" case 111 => "IF"
        case 112 => "ISNULL" case 113 => "ORDER" case 114 => "RESTRICT" case 115 => "RIGHT"
        case 116 => "ROLLBACK" case 117 => "ROW" case 118 => "UNION" case _ => "USING"
      }
    else
      match i {
        case 120 => "VACUUM" case 121 => "VIEW" case 122 => "INITIALLY" case _ => "ALL"
      }
  }

  /** Certificate: the bucket of each keyword. */
  ghost function Bucket(i: nat): bv32
    requires i < 124
  {
    if i < 13 then
      match i {
        case 0 => 40 case 1 => 16 case 2 => 74 case 3 => 62 case 4 => 62 case 5 => 41 case 6 => 73
        case 7 => 69 case 8 => 34 case 9 => 86 case 10 => 78 case 11 => 14 case _ => 31
      }
    else if i < 26 then
      match i {
        case 13 => 90 case 14 => 16 case 15 => 44 case 16 => 56 case 17 => 96 case 18 => 23 case 19 => 123
        case 20 => 105 case 21 => 31 case 22 => 60 case 23 => 54 case 24 => 64 case _ => 79
      }
    else if i < 39 then
      match i {
        case 26 => 18 case 27 => 73 case 28 => 117 case 29 => 124 case 30 => 88 case 31 => 99 case 32 => 51
        case 33 => 76 case 34 => 26 case 35 => 114 case 36 => 2 case 37 => 28 case _ => 91
      }
    else if i < 52 then
      match i {
        case 39 => 110 case 40 => 103 case 41 => 13 case 42 => 20 case 43 => 51 case 44 => 5 case 45 => 105
        case 46 => 126 case 47 => 43 case 48 => 8 case 49 => 97 case 50 => 112 case _ => 97
      }
    else if i < 65 then
      match i {
        case 52 => 59 case 53 => 20 case 54 => 74 case 55 => 126 case 56 => 72 case 57 => 120 case 58 => 111
        case 59 => 70 case 60 => 124 case 61 => 104 case 62 => 120 case 63 => 121 case _ => 28
      }
    else if i < 78 then
      match i {
        case 65 => 37 case 66 => 47 case 67 => 58 case 68 => 40 case 69 => 37 case 70 => 38 case 71 => 48
        case 72 => 47 case 73 => 3 case 74 => 103 case 75 => 0 case 76 => 10 case _ => 15
      }
    else if i < 91 then
      match i {
        case 78 => 45 case 79 => 102 case 80 => 94 case 81 => 8 case 82 => 28 case 83 => 106 case 84 => 19
        case 85 => 119 case 86 => 98 case 87 => 88 case 88 => 97 case 89 => 44 case _ => 76
      }
    else if i < 104 then
      match i {
        case 91 => 86 case 92 => 32 case 93 => 109 case 94 => 85 case 95 => 65 case 96 => 87 case 97 => 89
        case 98 => 81 case 99 => 78 case 100 => 48 case 101 => 45 case 102 => 53 case _ => 69
      }
    else if i < 117 then
      match i {
        case 104 => 1 case 105 => 69 case 106 => 89 case 107 => 92 case 108 => 89 case 109 => 63 case 110 => 98
        case 111 => 21 case 112 => 103 case 113 => 112 case 114 => 29 case 115 => 18 case _ => 2
      }
    else
      match i {
        case 117 => 47 case 118 => 28 case 119 => 101 case 120 => 26 case 121 => 58 case 122 => 71 case _ => 68
      }
  }

  /** Certificate: index plus one of the keyword before it in its bucket, 0 for the first. */
  ghost function Before(i: nat): nat
    requires i < 124
  {
    if i < 13 then
      match i {
        case 0 => 69 case 1 => 15 case 2 => 55 case 3 => 5 case 4 => 0 case 5 => 0 case 6 => 28
        case 7 => 104 case 8 => 0 case 9 => 92 case 10 => 100 case 11 => 0 case _ => 22
      }
    else if i < 26 then
      match i {
        case 13 => 0 case 14 => 0 case 15 => 90 case 16 => 0 case 17 => 0 case 18 => 0 case 19 => 0
        case 20 => 46 case 21 => 0 case 22 => 0 case 23 => 0 case 24 => 0 case _ => 0
      }
    else if i < 39 then
      match i {
        case 26 => 116 case 27 => 0 case 28 => 0 case 29 => 61 case 30 => 88 case 31 => 0 case 32 => 44
        case 33 => 91 case 34 => 121 case 35 => 0 case 36 => 117 case 37 => 65 case _ => 0
      }
    else if i < 52 then
      match i {
        case 39 => 0 case 40 => 75 case 41 => 0 case 42 => 54 case 43 => 0 case 44 => 0 case 45 => 0
        case 46 => 56 case 47 => 0 case 48 => 82 case 49 => 52 case 50 => 114 case _ => 89
      }
    else if i < 65 then
      match i {
        case 52 => 0 case 53 => 0 case 54 => 0 case 55 => 0 case 56 => 0 case 57 => 63 case 58 => 0
        case 59 => 0 case 60 => 0 case 61 => 0 case 62 => 0 case 63 => 0 case _ => 83
      }
    else if i < 78 then
      match i {
        case 65 => 70 case 66 => 73 case 67 => 122 case 68 => 0 case 69 => 0 case 70 => 0 case 71 => 101
        case 72 => 118 case 73 => 0 case 74 => 113 case 75 => 0 case 76 => 0 case _ => 0
      }
    else if i < 91 then
      match i {
        case 78 => 102 case 79 => 0 case 80 => 0 case 81 => 0 case 82 => 119 case 83 => 0 case 84 => 0
        case 85 => 0 case 86 => 111 case 87 => 0 case 88 => 0 case 89 => 0 case _ => 0
      }
    else if i < 104 then
      match i {
        case 91 => 0 case 92 => 0 case 93 => 0 case 94 => 0 case 95 => 0 case 96 => 0 case 97 => 107
        case 98 => 0 case 99 => 0 case 100 => 0 case 101 => 0 case 102 => 0 case _ => 106
      }
    else if i < 117 then
      match i {
        case 104 => 0 case 105 => 0 case 106 => 109 case 107 => 0 case 108 => 0 case 109 => 0 case 110 => 0
        case 111 => 0 case 112 => 0 case 113 => 0 case 114 => 0 case 115 => 0 case _ => 0
      }
    else
      match i {
        case 117 => 0 case 118 => 0 case 119 => 0 case 120 => 0 case 121 => 0 case 122 => 0 case _ => 0
      }
  }
}
