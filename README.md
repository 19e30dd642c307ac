# Meme generator caption editor, modelled in Dafny

The meme generator is a single React component. It shows a template image with a top and a bottom caption over it. The user can:

- type the caption texts;
- make the font bigger or smaller;
- pick a random template from a catalog fetched at start-up;
- drag either caption to a new place.

Whenever any field of the editor's record changes, caption text included, the component re-anchors both captions to the image's edges. So anchoring also runs after every keystroke in either caption input.

The project has two modules.

- `MemeEditor` (`meme_editor.dfy`) models the editor's state record `{topText, bottomText, randomImage, fontSize}` and its four reducer-style handlers. Each handler is a function that returns a new record. `Step` dispatches one user action to its handler and `Run` applies a whole session of actions. The lemmas prove the invariants of every session: the font size is at least 10 and a multiple of 10, and the image shown is the placeholder or a catalog URL.
- `CaptionLayout` (`caption_layout.dfy`) models the two routines that assign caption styles in place: the drop handler and the anchoring routine. Each caption element is an object of class `Caption` with the four style numbers the code assigns (`left`, `top`, `bottom`, `fontSize`). Bounding boxes are passed in as values.

Modelling choices:

- `Math.random()` is a parameter `r` with `0 <= r < 1`.
- The catalog is a given sequence of templates. Only each template's URL is kept.
- Pixel arithmetic uses exact `real` numbers.
- Reading `.url` of the missing entry of an empty catalog throws in the code. Here that is the error `EmptyCatalog`. When it happens, `Step` leaves the record unchanged, because the code throws before it calls `setMeme`.

Anchoring does not reset a dragged caption completely. It sets only the top caption's `top`, the bottom caption's `bottom` and both font sizes. So a dragged caption keeps its `left`, and a dropped bottom caption keeps the `top` the drop gave it. `AdjustTextPosition` states these unchanged fields.

## Model

| member | source | states |
|---|---|---|
| MemeEditor.Initial | src/components/Meme.jsx:5-10 | the initial record has empty captions, the placeholder image and font size 40, which meets the font-size invariant |
| MemeEditor.HandleChange | src/components/Meme.jsx:36-42 | the input's named field becomes the value verbatim; the other caption, the image and the font size keep their values |
| MemeEditor.LastChangeWins | src/components/Meme.jsx:36-42 | typing twice into the same input leaves only the second value |
| MemeEditor.RandomIndex | src/components/Meme.jsx:70 | `floor(r * n)` for `0 <= r < 1` is an index in `[0, n)`, and it is the integer part of `r * n` |
| MemeEditor.GetMemeImage | src/components/Meme.jsx:69-76 | fails with `EmptyCatalog` exactly when the catalog is empty; otherwise the new image is the URL of catalog entry `floor(r * n)`, hence a catalog URL, and no other field changes |
| MemeEditor.EveryTemplateReachable | src/components/Meme.jsx:69-76 | for every catalog entry some random number in `[0, 1)` makes the handler show that entry's URL, with nothing else changed |
| MemeEditor.SingleTemplateAlwaysChosen | src/components/Meme.jsx:69-76 | with a one-entry catalog, every random number selects that entry's URL |
| MemeEditor.IncreaseFontSize | src/components/Meme.jsx:78-83 | the font size grows by exactly 10, with no upper bound; texts and image are unchanged; the font-size invariant is kept |
| MemeEditor.DecreaseFontSize | src/components/Meme.jsx:85-90 | the font size becomes `max(10, fontSize - 10)`: never below 10, exactly 10 from any size up to 20, 10 less otherwise; texts and image are unchanged; the invariant is kept |
| MemeEditor.DecreaseUndoesIncrease | src/components/Meme.jsx:78-90 | from any font size of at least 10, a decrease undoes an increase |
| MemeEditor.IncreaseUndoesDecrease | src/components/Meme.jsx:78-90 | an increase undoes a decrease exactly when the font size was at least 20 |
| MemeEditor.Step | src/components/Meme.jsx:138-168 | dispatching one form action keeps the font-size invariant and leaves the image as it was or at a catalog URL |
| MemeEditor.RunKeepsFontSizeValid | src/components/Meme.jsx:78-90 | every session of actions keeps the font size at least 10 and a multiple of 10 |
| MemeEditor.RunImageFromCatalog | src/components/Meme.jsx:69-76 | after any session the image is the one shown before or a catalog URL |
| MemeEditor.ReachableStates | src/components/Meme.jsx:5-10 | from the initial record every session keeps the font size at least 10 and shows the placeholder or a catalog URL |
| CaptionLayout.DropTarget | src/components/Meme.jsx:54 | the payload `"top"` selects the top caption; every other payload selects the bottom caption |
| CaptionLayout.DropFramesAgree | src/components/Meme.jsx:50-59 | the dropped caption's centre, read in the frame of the image's containing box, is on the drop point exactly when the image's top-left corner is the container's |
| CaptionLayout.DropCorner | src/components/Meme.jsx:51-52 | the corner assigned to a dropped caption puts its centre on the drop point relative to the image, and it is the only such corner |
| CaptionLayout.Caption.MoveTo | src/components/Meme.jsx:58-59 | assigns the caption's `left` and `top`; `bottom` and the font size are unchanged |
| CaptionLayout.HandleDrop | src/components/Meme.jsx:48-67 | the caption named by the payload gets its centre on the drop point, measured from the image's top-left corner; the other caption is unchanged |
| CaptionLayout.AnchorOffsets | src/components/Meme.jsx:108-112 | the top offset puts the top caption 20px below the image's top edge and the bottom offset puts the bottom caption 20px above its bottom edge; both are at least 20 when the image lies inside its container |
| CaptionLayout.AdjustTextPosition | src/components/Meme.jsx:99-121 | sets the top caption's `top` and the bottom caption's `bottom` 20px inside the image's edges and gives both captions the editor's font size, which is at least 10 for a valid state; `left` and the other vertical offset are unchanged |

## Left out

- The template fetch at start-up (src/components/Meme.jsx:92-96) is network I/O. The catalog is a parameter, and only each entry's `url` is modelled.
- The export to PNG and the download link (src/components/Meme.jsx:16-33) call a foreign rasterising library and the browser. The check for a cross-origin stylesheet error there only decides what gets logged.
- `Math.random()` is not modelled as a random source. The model proves that every catalog entry can be shown, but it says nothing about the uniform distribution.
- Effect scheduling is React and DOM event-loop mechanics and is not modelled. This covers running the anchoring effect when `meme` changes, waiting for the image's `load` event, and removing the listener on cleanup (src/components/Meme.jsx:123-133). Anchoring is a plain method call.
- Drag start (src/components/Meme.jsx:44-46) only writes the payload string. The payload is passed to `HandleDrop` as `tag`.
- `getBoundingClientRect` and the formatting of style values as `"<n>px"` strings are DOM APIs. Boxes are passed in as values, and styles are stored as numbers. Before the code first assigns a style property it is unset in the browser; here every `Caption` starts with given numbers.
- HandleDrop: the centre is stated in the image's frame, the frame in which the code measures the drop point (src/components/Meme.jsx:50-52). The browser reads `left` and `top` in the frame of the image's containing box, the frame `AdjustTextPosition` uses (src/components/Meme.jsx:108-112). The two frames agree only when the image's top-left corner is the container's (`DropFramesAgree`). Where the image sits in its container is set by the stylesheet, which is not part of this model.
- How CSS resolves an element that has both `top` and `bottom` set is not modelled.
- HandleChange: only the two names the form's inputs carry (`topText`, `bottomText`) are accepted. The JavaScript spread would add or overwrite any key for another name, but no element of the form sends another name.
- The JSX markup (src/components/Meme.jsx:135-206) and src/components/Header.jsx are static presentation.
- IEEE floating-point rounding of pixel values is not modelled; arithmetic is exact.
