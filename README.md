# QWT core model in Dafny

This project models the non-graphical core of QWT, the Qt widget library for technical plots, as extended in this repository with figures, parasite plots and interactive scales. It also models the `make-classinclude.py` tool that generates the forwarding headers. Each core source file becomes one Dafny module:

- **Small utilities.** `qwtSelectNextIterator` (`Algorithm`), the axis positions (`Axis`), the helpers of `qwt_math.h` (`QwtMath`) and the pixel bit field `QwtPixelMatrix` (`PixelMatrix`).
- **Grid data.** The regular grid container `QwtGridData` (`GridData`): validity, validation, index search and value lookup.
- **Zoom stacks.** `QwtCanvasZoomer` and `QwtPlotCanvasZoomer` (`CanvasZoomer`, `PlotCanvasZoomer`) and their zoom states.
- **Figures.** The figure layout (`FigureLayout`), the figure (`Figure`) and the overlay that selects, moves and resizes plots inside a figure (`FigureOverlay`).
- **Plot state.**
  - Per-axis settings and validity (`PlotAxis`).
  - Layout settings (`PlotLayout`) and the layout engine's dimension loop and legend placement (`PlotLayoutEngine`).
  - The scale widget's settings (`ScaleWidget`) and the scale draw's settings and label cache (`ScaleDraw`).
  - `QwtPlot`'s host/parasite bookkeeping, autoReplot handling, stacked edge margins and `rescaleAxes` (`Plot`).
- **Interaction.** The scale event dispatcher's selection, pan and zoom state machine (`ScaleDispatcher`), the panner (`Panner`) and the magnifier (`Magnifier`).
- **Data helpers.** The legend attribute map (`LegendData`), series bounding rectangles (`SeriesData`) and column rectangles and column symbol settings (`ColumnSymbol`).
- **Header tool.** `tools/make-classinclude.py` (`ClassInclude`): class-name extraction by the two regular expressions, the de-duplication and exclusion filter, the generated header contents and the skip and count logic of `main`.

Shared geometry (Qt's `QRect`, `QRectF`, `QPoint`, `QSize`, `QwtInterval`) and rounding helpers live in the `Types` module.

Objects whose methods update their fields are classes with `modifies` clauses. Signals they emit and layout requests are logged in sequence or counter fields; the plot tree also counts replots, while a zoomer's rescale (applying the zoom rectangle to the plot and replotting) appears only as its `zoomed` log. Pure computations are functions. Loops in the source are methods with loop invariants, proved against a specification function. Plots, widgets and scale widgets are identified by numbers. Virtual functions, text metrics, label texts and the Qt object tree are parameters.

## Model

| member | source | states |
|---|---|---|
| Algorithm.Find | src/qwt_algorithm.hpp:107-108 | std::find as qwtSelectNextIterator uses it: the first position holding the value, the end exactly when the value is absent |
| Algorithm.StartPos | src/qwt_algorithm.hpp:107-113 | the search starts at the first occurrence of current, or at the beginning when current is not in the range |
| Algorithm.SelectNext | src/qwt_algorithm.hpp:100-130 | an empty range gives end; otherwise the result is a valid position one step forward or backward from the start, wrapping at both ends |
| Algorithm.ForwardThenBackward | src/qwt_algorithm.hpp:116-127 | on a range without repeats, a forward step followed by a backward step returns to the start position |
| Algorithm.BackwardThenForward | src/qwt_algorithm.hpp:116-127 | on a range without repeats, a backward step followed by a forward step returns to the start position |
| Algorithm.ForwardReachesEvery | src/qwt_algorithm.hpp:116-120 | every position is the forward successor of the element cyclically before it, so repeated forward selection visits the whole range |
| Axis.AxisClassification | src/qwt_axis.h:38-80 | the valid positions are exactly YLeft, YRight, XBottom and XTop; each valid position is an X or a Y axis and never both; an invalid one is neither |
| QwtMath.VerifyRange | src/qwt_math.h:303-315 | size < 1 returns 0 and leaves both indices; otherwise both are clamped into [0, size-1] and ordered, and the count is i2-i1+1, between 1 and size |
| QwtMath.QBoundIsClamp | src/qwt_math.h:308-309 | qBound(0, i, size-1) is the clamp of i into the range and lies inside it |
| QwtMath.FuzzyCompare | src/qwt_math.h:172-183 | 0 exactly when the values are within abs(1e-6*intervalSize), -1 exactly when value2 is larger by more, 1 exactly when value1 is larger by more |
| QwtMath.FuzzyCompareAntisymmetric | src/qwt_math.h:172-183 | swapping the two values negates the result |
| QwtMath.Sign | src/qwt_math.h:186-194 | 1, -1 or 0 exactly for positive, negative or zero arguments |
| QwtMath.MinF | src/qwt_math.h:111-114 | returns one of the arguments, no larger than either |
| QwtMath.MaxF | src/qwt_math.h:135-138 | returns one of the arguments, no smaller than either |
| QwtMath.CubicPolynomialExpanded | src/qwt_math.h:245-248 | the Horner-form evaluation equals a*x^3 + b*x^2 + c*x + d |
| PixelMatrix.Index | src/qwt_pixel_matrix.h:103-114 | -1 exactly when the point lies outside the rectangle; otherwise an index inside the bit field of width*height bits |
| PixelMatrix.IndexInjective | src/qwt_pixel_matrix.h:103-114 | two points inside the rectangle with the same index are the same point |
| PixelMatrix.QwtPixelMatrix.constructor | src/qwt_pixel_matrix.cpp:34-38 | max(width*height, 0) cleared bits over the given rectangle |
| PixelMatrix.QwtPixelMatrix.IndexOf | src/qwt_pixel_matrix.h:103-114 | the index is -1 or a valid bit position |
| PixelMatrix.QwtPixelMatrix.TestPixel | src/qwt_pixel_matrix.h:68-72 | true outside the rectangle, the stored bit inside |
| PixelMatrix.QwtPixelMatrix.SetRect | src/qwt_pixel_matrix.cpp:52-62 | the rectangle is adopted, the bit field is reallocated only when the rectangle changes, and every bit is cleared |
| PixelMatrix.QwtPixelMatrix.TestAndSetPixel | src/qwt_pixel_matrix.h:84-94 | outside: true and nothing changes; inside: the previous bit is returned and only that bit becomes on |
| PixelMatrix.DuplicateFilter | src/qwt_pixel_matrix.h:65-66 | after a pixel is set, testing it again reports it as already set |
| CanvasZoomer.StatesEqual | src/qwt_canvas_zoomer.cpp:69-77 | two zoom states compare equal exactly when all four intervals are equal |
| CanvasZoomer.FromPlot | src/qwt_canvas_zoomer.cpp:16-44 | each of the four axes (yLeft, yRight, xBottom, xTop) takes the plot's scale range when it is visible and the invalid default interval otherwise |
| CanvasZoomer.Shifted | src/qwt_canvas_zoomer.cpp:330-351 | valid xBottom and xTop intervals move by dx and valid yLeft and yRight intervals by dy, keeping their widths; an invalid interval on any axis is left as it was |
| CanvasZoomer.ShiftRoundTrip | src/qwt_canvas_zoomer.cpp:330-351 | shifting by (-dx, -dy) undoes a shift by (dx, dy) |
| CanvasZoomer.SetZoomStackIndexAsWritten | src/qwt_canvas_zoomer.cpp:270-271 | as written, every index from 0 up to and including the count is kept, so a non-empty stack can get an index from 0 to count, one past the last entry |
| CanvasZoomer.SetZoomStackIndexOutOfRange | src/qwt_canvas_zoomer.cpp:270-271 | as written, an index equal to the stack count is kept: count 3 and index 3 give 3, one past the last entry |
| CanvasZoomer.SetZoomStackIndex | src/qwt_canvas_zoomer.cpp:270-271 | corrected: the index is always a valid entry, a valid index is kept, and only index == count differs from the code as written |
| CanvasZoomer.Normalized | src/qwt_canvas_zoomer.cpp:390-391 | QRect::normalized gives a non-negative size and keeps the same corner coordinates on each axis |
| CanvasZoomer.GrowAboutCentre | src/qwt_canvas_zoomer.cpp:399-401 | the side grows to at least 11 pixels and is re-centred, so the old centre stays inside and at most one pixel off the middle |
| CanvasZoomer.Accept | src/qwt_canvas_zoomer.cpp:385-408 | refused for fewer than two points or when both sides are under 2 pixels; otherwise two corners of a rectangle at least 11x11 that contains the old centre |
| CanvasZoomer.QwtCanvasZoomer.constructor | src/qwt_canvas_zoomer.cpp:101-118 | no depth limit, and the stack holds only the plot's current state, with the cursor on it |
| CanvasZoomer.QwtCanvasZoomer.ZoomState | src/qwt_canvas_zoomer.cpp:152-157 | the current state is an entry of the stack |
| CanvasZoomer.QwtCanvasZoomer.ZoomBase | src/qwt_canvas_zoomer.cpp:145-150 | the base is an entry of the stack |
| CanvasZoomer.QwtCanvasZoomer.SetZoomBase | src/qwt_canvas_zoomer.cpp:159-171 | without a plot nothing changes; otherwise the stack becomes exactly the plot's state with the cursor on it |
| CanvasZoomer.QwtCanvasZoomer.ZoomTo | src/qwt_canvas_zoomer.cpp:225-242 | refused at the depth limit or for the current state; otherwise the redo entries are dropped, the state is pushed and becomes current, and zoomed is emitted |
| CanvasZoomer.QwtCanvasZoomer.ZoomBy | src/qwt_canvas_zoomer.cpp:244-260 | offset 0 goes to the base, any other offset moves the cursor by the offset clamped into the stack, and zoomed is emitted only when the cursor moves |
| CanvasZoomer.QwtCanvasZoomer.SetMaxStackDepth | src/qwt_canvas_zoomer.cpp:120-133 | stores the limit; a stack deeper than the limit is zoomed out by the excess and cut above the cursor, so the invariant holds again; when the zoom out moves the cursor, zoomed() is emitted with the new current state |
| CanvasZoomer.QwtCanvasZoomer.ZoomByUnchecked | src/qwt_canvas_zoomer.cpp:244-260 | zoom(int) as setMaxStackDepth calls it, while the stack may still exceed the limit |
| CanvasZoomer.QwtCanvasZoomer.SetZoomStack | src/qwt_canvas_zoomer.cpp:262-283 | an empty stack or one deeper than the limit is ignored; otherwise stack and repaired index are adopted, with zoomed emitted when the current state changes |
| CanvasZoomer.QwtCanvasZoomer.MoveCurrentState | src/qwt_canvas_zoomer.cpp:330-357 | only the current entry is replaced by its shift, and zoomed is emitted when that changes it |
| CanvasZoomer.QwtCanvasZoomer.CanBegin | src/qwt_canvas_zoomer.cpp:443-451 | a selection is refused exactly at the depth limit |
| CanvasZoomer.ZoomInOutRedo | src/qwt_canvas_zoomer.cpp:225-260 | zooming in, out by one and in by one again returns to the pushed state one entry above the start |
| PlotCanvasZoomer.StatesEqual | src/qwt_plot_canvas_zoomer.cpp:61-72 | the comparison is true exactly when plot and all four axis intervals agree |
| PlotCanvasZoomer.FromPlot | src/qwt_plot_canvas_zoomer.cpp:33-47 | a valid state for that plot whose interval on each of the four axes is the plot's scale range |
| PlotCanvasZoomer.BaseStates | src/qwt_plot_canvas_zoomer.cpp:231-248 | one state per plot of the plot list, in list order, each FromPlot of that plot |
| PlotCanvasZoomer.QwtPlotCanvasZoomer.constructor | src/qwt_plot_canvas_zoomer.cpp:114-133 | no depth limit and one base entry holding the current state of every plot |
| PlotCanvasZoomer.QwtPlotCanvasZoomer.ZoomState | src/qwt_plot_canvas_zoomer.cpp:223-229 | the current list is an entry of the stack |
| PlotCanvasZoomer.QwtPlotCanvasZoomer.SetZoomBase | src/qwt_plot_canvas_zoomer.cpp:231-250 | without a plot nothing changes; otherwise the stack becomes the one list of current per-plot states with the cursor on it |
| PlotCanvasZoomer.QwtPlotCanvasZoomer.ZoomBy | src/qwt_plot_canvas_zoomer.cpp:252-268 | offset 0 goes to the base, any other offset moves the cursor clamped into the stack, and zoomed is emitted only when the cursor moves |
| PlotCanvasZoomer.QwtPlotCanvasZoomer.AppendZoom | src/qwt_plot_canvas_zoomer.cpp:270-276 | the list is pushed on top of the whole stack, becomes current and is emitted |
| PlotCanvasZoomer.QwtPlotCanvasZoomer.SetMaxStackDepth | src/qwt_plot_canvas_zoomer.cpp:190-203 | stores the limit; a stack deeper than the limit is zoomed out by the excess and cut above the cursor, leaving at most limit + 1 entries; when the zoom out moves the cursor, zoomed() is emitted with the new current entry |
| PlotCanvasZoomer.QwtPlotCanvasZoomer.CanBegin | src/qwt_plot_canvas_zoomer.cpp:341-349 | a selection is refused exactly when a limit is set and the cursor has reached it |
| PlotCanvasZoomer.QwtPlotCanvasZoomer.ZoomSelection | src/qwt_plot_canvas_zoomer.cpp:341-373 | as written: when begin allows it, the new list is appended above every existing entry, redo entries included |
| PlotCanvasZoomer.QwtPlotCanvasZoomer.ZoomSelectionTruncating | src/qwt_plot_canvas_zoomer.cpp:341-373 | corrected: the entries above the cursor are dropped before the push, so a stack within the limit stays within it |
| PlotCanvasZoomer.DepthLimitExceeded | src/qwt_plot_canvas_zoomer.cpp:190-203 | with limit 1, zooming in, out and in again leaves three entries on the stack, more than the limit allows |
| Figure.PlotsIn | src/qwt_figure.cpp:197-212 | a widget is collected exactly when it is a plot held by some item, and there are no more plots than items |
| Figure.PlotsInAppend | src/qwt_figure.cpp:197-212 | collecting plots distributes over concatenation of item lists |
| Figure.PlotsInOne | src/qwt_figure.cpp:197-212 | one item contributes its widget when that widget is a plot and nothing otherwise |
| Figure.OddPositions | src/qwt_figure.cpp:382-404 | the items at odd positions, in order: about half of the list, the j-th being item 2j+1 |
| Figure.QwtFigure.constructor | src/qwt_figure.cpp:59-63 | the figure owns a fresh empty QwtFigureLayout and has no current axes |
| Figure.QwtFigure.AddAxes | src/qwt_figure.cpp:89-97 | the plot becomes current; a non-null plot is appended to the layout with its normalised rectangle, a null one adds nothing |
| Figure.QwtFigure.AddAxesAt | src/qwt_figure.cpp:99-107 | as AddAxes, with the rectangle built from left, top, width and height |
| Figure.QwtFigure.AddAxesGrid | src/qwt_figure.cpp:141-149 | the plot becomes current even when the grid parameters are invalid; only a non-null plot with valid parameters is appended, at the grid cell's rectangle |
| Figure.QwtFigure.AllAxes | src/qwt_figure.cpp:197-212 | the plots of the layout, in layout order |
| Figure.QwtFigure.HasAnyAxes | src/qwt_figure.cpp:232-247 | true exactly when some layout item holds a plot |
| Figure.QwtFigure.HasAxes | src/qwt_figure.cpp:269-287 | true exactly when the plot is non-null and some item holds it |
| Figure.QwtFigure.TakeAxes | src/qwt_figure.cpp:321-367 | removes the first item holding the plot and reports whether it did; when the plot was current, the last remaining plot becomes current, and with none left the old pointer stays; axesRemoved is emitted only on removal |
| Figure.QwtFigure.RemoveAxes | src/qwt_figure.cpp:309-314 | the plot is scheduled for deletion exactly when the layout held it; otherwise nothing changes |
| Figure.QwtFigure.ClearAsWritten | src/qwt_figure.cpp:382-404 | as written, the index advances after each removal, so the items at odd positions stay; the widgets of the items at even positions are passed to deleteLater, in order; current axes become null; figureCleared is emitted when the layout was not empty |
| Figure.QwtFigure.Clear | src/qwt_figure.cpp:382-404 | corrected: the layout is emptied and every item's widget is passed to deleteLater, in order; current axes become null; figureCleared is emitted when the layout was not empty |
| Figure.QwtFigure.DeleteItemAt | src/qwt_figure.cpp:388-398 | one pass of the clear loop: the item's widget, if any, is passed to deleteLater and exactly that item leaves the layout |
| Figure.EvenPositions | src/qwt_figure.cpp:388-398 | the items at positions 0, 2, 4, ...: the ones the as-written loop removes |
| Figure.ItemWidgets | src/qwt_figure.cpp:388-398 | the widgets the items hold, in order, skipping items without one: a widget is listed exactly when some item holds it |
| Figure.ItemWidgetsAppend | src/qwt_figure.cpp:388-398 | collecting widgets distributes over concatenation, so the deleted log grows one removal at a time |
| Figure.EvenStep | src/qwt_figure.cpp:388-398 | the item the as-written loop removes at pass i is the one at position 2i of the original list |
| Figure.EvenPositionsUnique | src/qwt_figure.cpp:388-398 | any sequence of the right length holding the even-position items is EvenPositions |
| Figure.QwtFigure.SetCurrentAxes | src/qwt_figure.cpp:827-832 | only a non-null plot the layout holds becomes current; otherwise the current axes stay |
| Figure.IndexOfWidget | src/qwt_figure.cpp:334-349 | the loop finds the first position whose widget is the plot, as Algorithm.Find defines it |
| Figure.LastPlot | src/qwt_figure.cpp:350-361 | the re-selection loop ends on the last plot of the layout, or the old value when there is none |
| Figure.ClearStep | src/qwt_figure.cpp:388-398 | one pass of clear()'s loop keeps its invariant: the first i items are the odd ones, the rest are the original tail |
| Figure.OddPositionsUnique | src/qwt_figure.cpp:382-404 | any list with the odd-position characterisation is OddPositions |
| Figure.ClearLeavesPlotExample | src/qwt_figure.cpp:382-404 | with two plots, clear() as written leaves the second one in the layout while emitting figureCleared |
| Figure.TakeOnlyPlotExample | src/qwt_figure.cpp:321-367 | taking the only plot, which is current, empties the layout but leaves the current axes pointing at it |
| FigureLayout.Widgets | src/qwt_figure_layout.cpp:459-472 | the widget of each layout entry, position by position |
| FigureLayout.BoundR | src/qwt_figure_layout.cpp:502-505 | qBound on reals: the result lies between the bounds and a value already between them is kept |
| FigureLayout.RoundToPrecision | src/qwt_figure_layout.cpp:498-499 | rounding to a multiple of 1e-6 moves the value by at most half a step |
| FigureLayout.CalcNormRect | src/qwt_figure_layout.cpp:480-508 | an empty parent gives the null rectangle; otherwise left and top lie in [0,1] and width and height fit in what remains |
| FigureLayout.CalcNormRectAccurate | src/qwt_figure_layout.cpp:480-508 | for a child inside the parent, left and top are the child's offset divided by the parent size, within the 1e-6 rounding |
| FigureLayout.CalcGridRect | src/qwt_figure_layout.cpp:539-578 | invalid grid parameters or no free space give (0,0,1,1); every result lies inside the unit square |
| FigureLayout.CellFits | src/qwt_figure_layout.cpp:558-575 | a cell run that fits the grid starts at or after 0 and ends at or before 1 |
| FigureLayout.GridRectExact | src/qwt_figure_layout.cpp:539-578 | with valid parameters and free space, the rectangle is the cell start and extent on each axis |
| FigureLayout.GridCellsDisjoint | src/qwt_figure_layout.cpp:539-578 | two cells whose columns do not overlap give rectangles that do not overlap horizontally |
| FigureLayout.CellsOrdered | src/qwt_figure_layout.cpp:558-575 | a run of cells ends at or before the start of any later cell, with the spacing between them |
| FigureLayout.QwtFigureLayout.constructor | src/qwt_figure_layout.cpp:29-43 | no items, and every margin at the default 0.02 |
| FigureLayout.QwtFigureLayout.Count | src/qwt_figure_layout.cpp:87-90 | the number of entries |
| FigureLayout.QwtFigureLayout.AddItem | src/qwt_figure_layout.cpp:57-67 | a null item is ignored; any other is appended with the unit norm rectangle, nothing else changing |
| FigureLayout.QwtFigureLayout.ItemAt | src/qwt_figure_layout.cpp:69-75 | an item exactly for an index in [0, count), and then the entry at that index |
| FigureLayout.QwtFigureLayout.TakeAt | src/qwt_figure_layout.cpp:77-85 | returns itemAt(index); when it is an item, exactly that entry is removed and the others keep their order |
| FigureLayout.QwtFigureLayout.AddAxes | src/qwt_figure_layout.cpp:197-209 | a null widget is ignored; otherwise exactly one entry with the rectangle is appended |
| FigureLayout.QwtFigureLayout.AddAxesAt | src/qwt_figure_layout.cpp:245-248 | as AddAxes, with the rectangle built from left, top, width and height |
| FigureLayout.QwtFigureLayout.AddAxesGrid | src/qwt_figure_layout.cpp:338-363 | nothing is appended for a null widget or invalid parameters; otherwise one entry at the grid cell's rectangle |
| FigureLayout.QwtFigureLayout.SetAxesNormPos | src/qwt_figure_layout.cpp:372-379 | every entry of that widget takes the rectangle; the items, their order and all other rectangles stay |
| FigureLayout.QwtFigureLayout.AdjustLayout | src/qwt_figure_layout.cpp:411-434 | all four margins are stored when each lies in [0,1], even when left + right >= 1; otherwise none changes |
| FigureLayout.QwtFigureLayout.WidgetNormRect | src/qwt_figure_layout.cpp:459-472 | the rectangle of the first entry holding the widget, and the null rectangle for a null or absent widget |
| FigureOverlay.Grown | src/qwt_figure_widget_overlay.cpp:147 | QRect::adjusted(-err, -err, err, err): every edge moves outwards by err |
| FigureOverlay.ControlTypeToCursor | src/qwt_figure_widget_overlay.cpp:108-134 | each cursor shape is chosen exactly for its control types: vertical lines, horizontal lines, the two diagonals, the inside and the outside |
| FigureOverlay.GetPositionControlType | src/qwt_figure_widget_overlay.cpp:143-180 | outside exactly when the point is not in the grown region; otherwise the left, right and middle bands give corners, edge lines or the inside, and Inner exactly for the inner rectangle |
| FigureOverlay.IsPointInRectEdgeAsWritten | src/qwt_figure_widget_overlay.cpp:189-204 | as written, a point is reported only when it is inside the region grown by err and it is either left of left - err or strictly within err of the right, top or bottom edge |
| FigureOverlay.LeftBranchUnreachable | src/qwt_figure_widget_overlay.cpp:189-197 | the as-written left-edge test pos.x < left - err can never hold for a point inside the grown region |
| FigureOverlay.IsPointInRectEdgeAsWrittenMissesLeftEdge | src/qwt_figure_widget_overlay.cpp:189-204 | as written, the point (0, 50) on the left edge of (0, 0, 100, 100) with err 4 is not reported as on an edge |
| FigureOverlay.IsPointInRectEdge | src/qwt_figure_widget_overlay.cpp:189-204 | corrected: a point is reported exactly when it is inside the region grown by err and strictly within err of one of the four edges; for a non-negative err and width, every point the as-written test reports is reported too |
| FigureOverlay.LeftEdgeDetected | src/qwt_figure_widget_overlay.cpp:189-204 | corrected: any point strictly within err of the left edge and within the grown vertical span is on an edge |
| FigureOverlay.ResizedNormRect | src/qwt_figure_widget_overlay.cpp:630-764 | for the edge or corner under the mouse, the moved edges follow the mouse offset and the opposite edges stay; Inner moves the whole rectangle; OutSide gives nothing |
| FigureOverlay.ResizeUndo | src/qwt_figure_widget_overlay.cpp:630-764 | resizing by the opposite offset restores the original rectangle |
| FigureOverlay.Without | src/qwt_figure_widget_overlay.cpp:297-298 | QList::removeAll keeps exactly the other elements |
| FigureOverlay.WithoutParasites | src/qwt_figure_widget_overlay.cpp:303-314 | the remove_if/erase pair keeps exactly the widgets that are not parasite plots |
| FigureOverlay.Somes | src/qwt_figure_widget_overlay.cpp:316 | each widget wrapped as a non-null pointer, position by position |
| FigureOverlay.NextAmong | src/qwt_figure_widget_overlay.cpp:316-317 | nothing exactly for no candidates; otherwise one of the candidates |
| FigureOverlay.SelectedWidget | src/qwt_figure_widget_overlay.cpp:295-318 | the chosen widget is a child other than the overlay and not a parasite plot; nothing is chosen exactly when no child qualifies |
| FigureOverlay.SelectNextWidgetVisitsAll | src/qwt_figure_widget_overlay.cpp:295-318 | among distinct candidates, selecting forward from the previous one reaches each candidate |
| FigureOverlay.HitPlot | src/qwt_figure_widget_overlay.cpp:588-593 | a plot is hit only when its frame strictly contains the point, and nothing is hit exactly when no frame does |
| FigureOverlay.HitPlotSkip | src/qwt_figure_widget_overlay.cpp:588-593 | plots whose frames miss the point can be skipped without changing the hit |
| FigureOverlay.QwtFigureWidgetOverlay.constructor | src/qwt_figure_widget_overlay.cpp:59-83 | no resize in progress and both built-in functions on; the active widget is the current axes, else the next plot, else the next child widget |
| FigureOverlay.QwtFigureWidgetOverlay.SetActiveWidget | src/qwt_figure_widget_overlay.cpp:372-382 | the widget becomes active, activeWidgetChanged is emitted exactly when it differs, and nothing else changes |
| FigureOverlay.QwtFigureWidgetOverlay.SelectNextWidget | src/qwt_figure_widget_overlay.cpp:295-318 | the active widget becomes SelectedWidget of the children, the overlay's resize state untouched |
| FigureOverlay.QwtFigureWidgetOverlay.SelectNextPlot | src/qwt_figure_widget_overlay.cpp:324-336 | without plots nothing is active; otherwise the next plot after the active one when it is a plot, else from the start |
| FigureOverlay.QwtFigureWidgetOverlay.OnKeyPressed | src/qwt_figure_widget_overlay.cpp:766-787 | Return, Up and Left select forward, Right and Down backward, and any other key is not consumed and changes nothing |
| FigureOverlay.QwtFigureWidgetOverlay.OnMouseMove | src/qwt_figure_widget_overlay.cpp:531-541 | consumed exactly while a widget is active and a resize is in progress |
| FigureOverlay.QwtFigureWidgetOverlay.OnMousePressed | src/qwt_figure_widget_overlay.cpp:573-628 | only a left press with plots acts: outside the active frame it activates the plot hit, if any; inside it starts a resize with the control type, press point and null target rectangle, and saves the active widget's normalised rect from the layout as the rect the resize starts from |
| FigureOverlay.QwtFigureWidgetOverlay.OnHoverMove | src/qwt_figure_widget_overlay.cpp:630-764 | without an active widget nothing happens; during a resize the target rectangle is ResizedNormRect of the offset as a fraction of the figure; otherwise the control type under the mouse is stored and the cursor follows it |
| FigureOverlay.QwtFigureWidgetOverlay.OnMouseRelease | src/qwt_figure_widget_overlay.cpp:543-571 | always consumed; a left release ends the resize and emits widgetNormGeometryChanged only for an active widget with a valid target rectangle |
| GridData.Insert | src/qwt_grid_data.hpp:394-413 | inserting into a sorted axis gives a sorted axis with the same values plus the new one |
| GridData.Sort | src/qwt_grid_data.hpp:394-413 | std::sort: a sorted permutation of the axis |
| GridData.LowerBound | src/qwt_grid_data.hpp:454 | std::lower_bound: every value before the index is below val, and the value at the index is not |
| GridData.FindClosestIndex | src/qwt_grid_data.hpp:452-461 | a valid index for a non-empty axis: 0 at or below the first value, the last index above the last value, and otherwise a position whose predecessor is below val; between the lower bound and its predecessor the lower bound is chosen exactly when it is strictly nearer, so a tie goes to the predecessor |
| GridData.ClosestIsNearest | src/qwt_grid_data.hpp:452-461 | on a sorted axis the chosen value is at least as close to val as every other axis value |
| GridData.FindLowerIndex | src/qwt_grid_data.hpp:473-479 | 0 at or below the first value; otherwise the last position whose value is below val |
| GridData.Clamp | src/qwt_grid_data.hpp:481-485 | lo below lo, hi above hi, the value otherwise, and so within [lo, hi] when lo <= hi |
| GridData.ValueRange | src/qwt_grid_data.hpp:495-514 | the bounds enclose every entry and, when there is one, both are entries; without entries the start values remain |
| GridData.QwtGridData.constructor | src/qwt_grid_data.hpp:123-126 | empty axes and data, nearest-neighbour mode, every bound 0 |
| GridData.QwtGridData.Valid | src/qwt_grid_data.hpp:367-387 | true exactly when no container is empty, the shapes match and both axes are sorted |
| GridData.QwtGridData.Validate | src/qwt_grid_data.hpp:394-413 | succeeds exactly for a matching shape (the exception otherwise); then the grid is valid, each axis is a permutation of the old one, a sorted axis is untouched and the data columns keep their order |
| GridData.QwtGridData.FindValueRange | src/qwt_grid_data.hpp:495-514 | dataMin and dataMax enclose every entry and are entries when there is one; nothing else changes |
| GridData.QwtGridData.SetValue | src/qwt_grid_data.hpp:140-201 | as written: on a matching shape the grid is valid with sorted axes, but xMin, xMax, yMin and yMax are the first and last values of the unsorted arguments |
| GridData.QwtGridData.SetValueSorted | src/qwt_grid_data.hpp:181-201 | corrected: the axis bounds are axis values that enclose every value of the arguments |
| GridData.QwtGridData.SetResampleMode | src/qwt_grid_data.hpp:250-253 | stores the mode and nothing else |
| GridData.QwtGridData.AtValue | src/qwt_grid_data.hpp:319-322 | a value exactly for indices inside the table (std::out_of_range otherwise), and then that entry |
| GridData.QwtGridData.NearestValue | src/qwt_grid_data.hpp:516-530 | the entry at the axis positions nearest to x and to y: no x position is closer to x and no y position is closer to y |
| GridData.SortedBounds | src/qwt_grid_data.hpp:394-413 | the first and last values of a sorted permutation are values of the original and enclose all of them |
| GridData.UnsortedAxisBoundExample | src/qwt_grid_data.hpp:181-201 | with x axis [1, 0], setValue as written sorts the axis to [0, 1] but sets xMin to 1, above the smallest value |
| GridData.SortedPair | src/qwt_grid_data.hpp:394-413 | a sorted permutation of two distinct values is the pair in increasing order |
| PlotLayoutEngine.ToUInt32 | src/qwt_plot_layout_engine.cpp:1075-1078 | storing an int in the unsigned margin array gives a value below 2^32 |
| PlotLayoutEngine.UInt32RoundTrip | src/qwt_plot_layout_engine.cpp:1065-1078 | canvasMargin returns any 32-bit margin given to setCanvasMargin, negative ones included |
| PlotLayoutEngine.WrapAddSigned | src/qwt_plot_layout_engine.cpp:915-923 | adding a stored (unsigned) margin to an int offset with 32-bit wrap-around gives the signed sum when that sum fits |
| PlotLayoutEngine.Dimensions.Centered | src/qwt_plot_layout_engine.cpp:79-86 | the label keeps its vertical extent and spans from the left axis to the right axis |
| PlotLayoutEngine.Dimensions.InnerRect | src/qwt_plot_layout_engine.cpp:99-116 | the rectangle minus the axes on each side; when the axes do not fit, a zero-size band at the centre |
| PlotLayoutEngine.InnerRectInside | src/qwt_plot_layout_engine.cpp:79-116 | with non-negative axis sizes that fit, the inner rectangle lies inside the rectangle, and a centred label spans exactly its width |
| PlotLayoutEngine.HeightForWidth | src/qwt_plot_layout_engine.cpp:1133-1157 | 0 for an empty label; otherwise the ceiling of the text height for the (possibly reduced) width, plus both frames unless frames are ignored |
| PlotLayoutEngine.TitleStep | src/qwt_plot_layout_engine.cpp:942-949 | only the title dimension can change and it never shrinks; an ignored title leaves everything as it is; otherwise the title dimension ends at least as high as the title's height for the width left by the y axes, taking either its old value or that height |
| PlotLayoutEngine.FooterStep | src/qwt_plot_layout_engine.cpp:951-958 | the same for the footer dimension |
| PlotLayoutEngine.AxisStep | src/qwt_plot_layout_engine.cpp:960-1018 | only the given axis' dimension can change and it never shrinks; a hidden axis leaves everything as it is; a visible one ends at least as wide as its demand (its size without title plus the title's height for the available length), taking either its old value or that demand |
| PlotLayoutEngine.Pass | src/qwt_plot_layout_engine.cpp:926-1019 | one pass of the loop never shrinks a dimension, and a title or footer that is not ignored ends at least as high as its height for the width the y axes left at the start of the pass |
| PlotLayoutEngine.AxesUpToGrows | src/qwt_plot_layout_engine.cpp:960-1018 | the axis updates only grow sizes, leave title and footer alone, keep ignored parts at zero, and change something exactly when the total grows |
| PlotLayoutEngine.PassGrows | src/qwt_plot_layout_engine.cpp:926-1019 | a pass only grows sizes, keeps ignored parts at zero, and sets done (changes nothing) exactly when the total stays the same |
| PlotLayoutEngine.LabelDemandBounded | src/qwt_plot_layout_engine.cpp:1133-1157 | with bounded text heights, a title or footer never asks for more than the cap |
| PlotLayoutEngine.AxisDemandBounded | src/qwt_plot_layout_engine.cpp:1007-1010 | with bounded title heights, an axis never asks for more than the cap |
| PlotLayoutEngine.PassInRange | src/qwt_plot_layout_engine.cpp:926-1019 | a pass keeps every size within [0, cap] |
| PlotLayoutEngine.AxesInRange | src/qwt_plot_layout_engine.cpp:960-1018 | the axis updates keep every size within [0, cap] |
| PlotLayoutEngine.QwtPlotLayoutEngine.constructor | src/qwt_plot_layout_engine.cpp:366-368 | legend at the bottom with ratio 1, spacing 5, zero canvas margins and no alignment |
| PlotLayoutEngine.QwtPlotLayoutEngine.SetLegendRatio | src/qwt_plot_layout_engine.cpp:1037-1040 | stores the ratio and nothing else |
| PlotLayoutEngine.QwtPlotLayoutEngine.SetLegendPos | src/qwt_plot_layout_engine.cpp:1055-1058 | stores the position and nothing else |
| PlotLayoutEngine.QwtPlotLayoutEngine.SetCanvasMargin | src/qwt_plot_layout_engine.cpp:1075-1078 | only that axis's margin changes, stored as unsigned, and canvasMargin reads back any 32-bit value |
| PlotLayoutEngine.QwtPlotLayoutEngine.SetAlignCanvas | src/qwt_plot_layout_engine.cpp:1095-1098 | only that axis's flag changes |
| PlotLayoutEngine.QwtPlotLayoutEngine.SetSpacing | src/qwt_plot_layout_engine.cpp:1113-1116 | stores the spacing and nothing else |
| PlotLayoutEngine.QwtPlotLayoutEngine.LegendExtent | src/qwt_plot_layout_engine.cpp:384-410 | left or right: the hint width capped by the ratio of the width, plus the scroll bar when it cannot show the full height; top or bottom: the capped hint height, raised to the scroll bar extent |
| PlotLayoutEngine.QwtPlotLayoutEngine.LayoutLegend | src/qwt_plot_layout_engine.cpp:384-433 | the legend takes a band of that extent along the chosen side of the rectangle, and the whole rectangle for an unknown position |
| PlotLayoutEngine.QwtPlotLayoutEngine.AlignLegend | src/qwt_plot_layout_engine.cpp:448-465 | a top or bottom legend narrower than the canvas takes the canvas's horizontal extent, a side legend shorter than the canvas its vertical extent; otherwise the rectangle stays |
| PlotLayoutEngine.QwtPlotLayoutEngine.BackboneOffsets | src/qwt_plot_layout_engine.cpp:915-923 | each offset is the contents margin unless frames are ignored, plus the canvas margin unless the canvas is aligned to that scale |
| PlotLayoutEngine.OnePass | src/qwt_plot_layout_engine.cpp:927-1018 | one pass of the loop body computes the specified pass, and reports a change exactly when some dimension grew |
| PlotLayoutEngine.QwtPlotLayoutEngine.LayoutDimensions | src/qwt_plot_layout_engine.cpp:907-1022 | the loop ends, on a fixed point of one pass, with sizes that only grew from zero and ignored parts still zero |
| LegendData.ToInt | src/qwt_legend_data.cpp:140-143 | qvariant_cast to int: an int is itself, a bool is 0 or 1, a double is rounded to the nearest integer |
| LegendData.QwtLegendData.constructor | src/qwt_legend_data.cpp:32-34 | no values, so not valid |
| LegendData.QwtLegendData.SetValues | src/qwt_legend_data.cpp:50-53 | the map is replaced by the given one |
| LegendData.QwtLegendData.SetValue | src/qwt_legend_data.cpp:81-84 | the role holds the data afterwards and every other role keeps its presence and value |
| LegendData.QwtLegendData.Value | src/qwt_legend_data.cpp:90-96 | an invalid (null) variant for a missing role, the stored value otherwise |
| LegendData.QwtLegendData.Mode | src/qwt_legend_data.cpp:137-147 | ReadOnly without a mode role or when it does not convert to int; an int mode is returned as stored |
| LegendData.ValidIffSomeRole | src/qwt_legend_data.cpp:99-102 | the data is valid exactly when some role is set |
| LegendData.SetModeThenRead | src/qwt_legend_data.cpp:137-147 | setting an int mode makes the data valid and mode() returns it |
| Magnifier.FuzzyCompareWithZero | src/qwt_plot_magnifier.cpp:134-137 | qFuzzyCompare(factor, 0.0) holds only for exactly 0, so only a zero factor is refused on that test |
| Magnifier.ZoomedInterval | src/qwt_plot_magnifier.cpp:153-172 | on an axis without a transformation the new interval keeps the centre and its width is multiplied by the factor |
| Magnifier.Zoom | src/qwt_plot_magnifier.cpp:153-174 | the map keeps its transformation; when the inverse transformation undoes the forward one, the new scale keeps its centre in paint coordinates and its extent there is multiplied by the factor |
| Magnifier.ZoomKeepsCentre | src/qwt_plot_magnifier.cpp:152-172 | in paint coordinates the zoomed interval keeps its centre and its width is multiplied by the factor |
| Magnifier.ZoomUndo | src/qwt_plot_magnifier.cpp:163-167 | on a linear scale, zooming by f and then by 1/f restores the interval |
| Magnifier.QwtPlotMagnifier.constructor | src/qwt_plot_magnifier.cpp:34-50 | every axis starts enabled |
| Magnifier.QwtPlotMagnifier.SetAxisEnabled | src/qwt_plot_magnifier.cpp:69-90 | a valid axis takes the flag and the other axes keep theirs; an invalid axis changes nothing |
| Magnifier.QwtPlotMagnifier.Rescale | src/qwt_plot_magnifier.cpp:127-186 | nothing happens without a host, for a parasite host, or for a factor fuzzily 1 or 0; otherwise every plot's enabled axes are zoomed by the absolute factor, the others and the autoReplot flag stay, and the host replots exactly when some axis was touched |
| Panner.MaskedDelta | src/qwt_plot_panner.cpp:150-159 | the offset between two points on each enabled orientation and 0 on a disabled one |
| Panner.MaskedDeltaAdds | src/qwt_plot_panner.cpp:150-168 | masked offsets add up: the step from a to b plus the step from b to c is the step from a to c |
| Panner.SumDeltasAppend | src/qwt_plot_panner.cpp:161-168 | the total of the moved offsets grows by each new offset |
| Panner.QwtPlotPanner.constructor | src/qwt_plot_panner.cpp:15-54 | left button without modifiers, both orientations, initial position (-1,-1), and enabled once init() has run |
| Panner.QwtPlotPanner.SetOrientations | src/qwt_plot_panner.cpp:96-99 | stores the orientations; button, modifiers, positions, active and enabled flags and the three signal logs stay |
| Panner.QwtPlotPanner.SetMouseButton | src/qwt_plot_panner.cpp:111-115 | stores button and modifiers; orientations, positions, active and enabled flags and the three signal logs stay |
| Panner.QwtPlotPanner.MouseButton | src/qwt_plot_panner.cpp:117-121 | getMouseButton returns the stored button and modifiers |
| Panner.QwtPlotPanner.SetEnabled | src/qwt_plot_panner.cpp:123-129 | stores the flag, and forwards it to the picker only when it changes |
| Panner.QwtPlotPanner.Begin | src/qwt_plot_panner.cpp:137-144 | a disabled panner ignores it; otherwise both positions become the tracker position and the picker is active; button, modifiers, orientations and the signal logs stay |
| Panner.QwtPlotPanner.Move | src/qwt_plot_panner.cpp:146-171 | ignored unless enabled and active; otherwise the current position is the mouse, and a non-zero masked offset is emitted as moved and becomes the new start; button, modifiers, flags and the other logs stay |
| Panner.QwtPlotPanner.End | src/qwt_plot_panner.cpp:173-193 | when active, panned is emitted for a non-zero masked offset still pending and both positions reset to (-1,-1); the picker ends inactive; button, modifiers, orientations and the other logs stay |
| Panner.ForwardedPressIsReleased | src/qwt_plot_panner.cpp:195-214 | a press the panner forwards is followed by a forwarded release of that button, and a release with the matching modifiers matches a forwarded press |
| Panner.Drag | src/qwt_plot_panner.cpp:137-193 | over a whole drag the moved offsets add up to the masked offset from the start to the last point, and end() emits no panned signal |
| Panner.PanAxis | src/qwt_plot_panner.cpp:222-245 | an axis keeps its range width; disabled or inverting axes, a zero offset or a disabled orientation leave it unchanged |
| Panner.PanAxisUndo | src/qwt_plot_panner.cpp:222-245 | panning by (-dx, -dy) undoes a pan by (dx, dy) |
| Panner.MoveCanvas | src/qwt_plot_panner.cpp:216-249 | without a plot nothing happens; otherwise every axis is panned by PanAxis and the plot is replotted |
| ColumnSymbol.ColumnOrientation | src/qwt_column_symbol.h:71-77 | horizontal exactly for the left-to-right and right-to-left directions, vertical exactly for the other two |
| ColumnSymbol.Normalized | src/qwt_column_symbol.cpp:305 | QRectF::normalized: non-negative size, spanning from the smaller to the larger coordinate on each axis |
| ColumnSymbol.ToRect | src/qwt_column_symbol.cpp:299-321 | the width is the absolute width of the horizontal interval less one for each excluded border, and the height likewise for the vertical interval |
| ColumnSymbol.ToRectEdges | src/qwt_column_symbol.cpp:299-321 | each edge is the smaller or larger interval bound, moved inward by one exactly when that border is excluded |
| ColumnSymbol.ToRectSymmetric | src/qwt_column_symbol.cpp:299-321 | without excluded borders the size is the absolute interval widths, and swapping an interval's bounds gives the same rectangle |
| ColumnSymbol.NormalizedIdempotent | src/qwt_column_symbol.cpp:305 | normalising twice is normalising once |
| ColumnSymbol.QwtColumnSymbol.constructor | src/qwt_column_symbol.cpp:108-134 | the given style, a plain frame, a black pen of width 1 and a gray brush |
| ColumnSymbol.QwtColumnSymbol.SetStyle | src/qwt_column_symbol.cpp:148-160 | style() returns the new style and nothing else changes |
| ColumnSymbol.QwtColumnSymbol.SetPen | src/qwt_column_symbol.cpp:166-178 | the pen is replaced and nothing else changes |
| ColumnSymbol.QwtColumnSymbol.SetBrush | src/qwt_column_symbol.cpp:184-196 | the brush is replaced and nothing else changes |
| ColumnSymbol.QwtColumnSymbol.SetFrameStyle | src/qwt_column_symbol.cpp:204-216 | frameStyle() returns the new frame style and nothing else changes |
| ColumnSymbol.QwtColumnSymbol.SetLineWidth | src/qwt_column_symbol.cpp:224-239 | lineWidth() then returns the width, with a negative width stored as 0; the pen colour stays |
| ColumnSymbol.QwtColumnSymbol.LineWidth | src/qwt_column_symbol.cpp:236-239 | the pen width rounded to the nearest integer, not negative for a non-negative pen width |
| ColumnSymbol.PlainOutline | src/qwt_column_symbol.cpp:28-56 | fill only exactly for a non-positive pen width; a vertical line for zero width, a horizontal line for zero height; otherwise a frame no wider than the pen, capped at half of each side minus one, and keeping the pen width when that cap is negative because QPen refuses a negative width |
| ColumnSymbol.WideBoxKeepsPenWidth | src/qwt_column_symbol.cpp:47-53 | a box at least 2(w+1) wide and high is framed with the full pen width w |
| ClassInclude.SkipSpaces | tools/make-classinclude.py:66-67 | the regex \s*: the longest run of white space from the position |
| ClassInclude.SkipWord | tools/make-classinclude.py:66-67 | the regex \w+ after its first character: the longest run of word characters from the position |
| ClassInclude.SkipToClose | tools/make-classinclude.py:79-80 | the regex [^>]*: the longest run without '>' from the position |
| ClassInclude.SkipSpacesExact | tools/make-classinclude.py:66-67 | any end of a maximal white-space run is the one SkipSpaces finds |
| ClassInclude.SkipWordExact | tools/make-classinclude.py:66-67 | any end of a maximal word run is the one SkipWord finds |
| ClassInclude.SkipToCloseExact | tools/make-classinclude.py:79-80 | the first '>' from the position is the one SkipToClose finds |
| ClassInclude.MatchExport | tools/make-classinclude.py:66-67 | a match at a position ends just after one of ':', '{' or '<' |
| ClassInclude.MatchExportSound | tools/make-classinclude.py:66-67 | every match has the shape keyword, white space, QWT_EXPORT, white space, a word, optional white space and an opener, and yields that word |
| ClassInclude.MatchExportComplete | tools/make-classinclude.py:66-67 | every text of that shape at the position is matched, yielding its word |
| ClassInclude.MatchTemplate | tools/make-classinclude.py:79-80 | a match at a position ends just after one of ':', '{' or '<' |
| ClassInclude.MatchTemplateSound | tools/make-classinclude.py:79-80 | every match has the shape template, optional white space, an angle-bracketed list without '>', optional white space, the keyword, white space, a word, optional white space and an opener, and yields that word |
| ClassInclude.MatchTemplateComplete | tools/make-classinclude.py:79-80 | every text of that shape at the position is matched, yielding its word |
| ClassInclude.NoOpenerNoExport | tools/make-classinclude.py:66-72 | re.findall finds no exported class in a text without ':', '{' or '<' |
| ClassInclude.NoOpenerNoTemplate | tools/make-classinclude.py:79-85 | re.findall finds no template class in a text without ':', '{' or '<' |
| ClassInclude.AddUniqueFacts | tools/make-classinclude.py:70-74 | appending matches without duplicates keeps the list as a prefix, holds exactly the old names and the matches, and stays duplicate-free |
| ClassInclude.AddTemplatesFacts | tools/make-classinclude.py:83-91 | as AddUniqueFacts, but names starting with QwtArray or QwtVector and the names QMap, QList, QVector, QSharedPointer are never added |
| ClassInclude.ExtractSpec | tools/make-classinclude.py:52-96 | a file that cannot be read gives no names; what a readable file gives is stated by ExtractFacts |
| ClassInclude.ExtractFacts | tools/make-classinclude.py:52-96 | the names are duplicate-free, start with the exported classes and structs in match order, and are exactly the exported names plus the template names not excluded |
| ClassInclude.ExtractExportedClasses | tools/make-classinclude.py:52-96 | the loops compute ExtractSpec: nothing for an unreadable file, otherwise the names ExtractFacts describes |
| ClassInclude.IncludeContentRoundTrip | tools/make-classinclude.py:106-112 | the include line written for a header reads back as that header |
| ClassInclude.FindHeaderFiles | tools/make-classinclude.py:37-50 | a missing directory gives no headers, an existing one all of its headers |
| ClassInclude.HeaderWritesSound | tools/make-classinclude.py:173-178 | every file written for a header is one of its names, not a fixed name, successfully written, and holds the include line of that header |
| ClassInclude.DiscoveredWritesSound | tools/make-classinclude.py:163-180 | every file written while scanning names a class found in some header, not a fixed name, and includes that header |
| ClassInclude.FixedWritesSound | tools/make-classinclude.py:124-140 | at most one file per fixed entry, each for an entry whose header exists and successfully written, including that header |
| ClassInclude.DiscoveredWritesStep | tools/make-classinclude.py:163-180 | processing one more header appends exactly that header's writes |
| ClassInclude.GenerateFixedFiles | tools/make-classinclude.py:124-140 | the loop writes FixedWrites and counts them |
| ClassInclude.WriteHeaderIncludes | tools/make-classinclude.py:173-178 | the loop writes HeaderWrites for the names of one header |
| ClassInclude.Run | tools/make-classinclude.py:142-185 | the fixed files are written first; without headers the run stops there with no summary; otherwise every header's files follow in order and the summary counts the headers and all files written |
| ClassInclude.MissingDirWritesNothing | tools/make-classinclude.py:124-140 | with the scan directory missing, no fixed file is written |
| PlotAxis.DefaultAxisData | src/qwt_plot_axis.cpp:40-53 | a new axis is visible and autoscaling with range [0, 1000], step 0, 8 major and 5 minor ticks, and an invalid division |
| PlotAxis.QFuzzyCompareReflexive | src/qwt_plot_axis.cpp:593-612 | qFuzzyCompare of a value with itself holds, so repeating setAxisScale changes nothing |
| PlotAxis.Unite | src/qwt_plot_axis.cpp:830-833 | operator\|= gives a valid interval enclosing every valid operand, and an invalid one when neither is valid |
| PlotAxis.AddItemBounds | src/qwt_plot_axis.cpp:818-835 | an item that does not contribute changes nothing; only the intervals of the item's x and y axes can change, and an interval that changes becomes valid |
| PlotAxis.ItemBounds | src/qwt_plot_axis.cpp:812-835 | after all items every bounding interval is either still the invalid default or a valid interval |
| PlotAxis.AddItemBoundsGrows | src/qwt_plot_axis.cpp:817-835 | one item never shrinks a bounding interval that is already valid |
| PlotAxis.ItemBoundsCoverX | src/qwt_plot_axis.cpp:817-835 | a contributing item with a non-negative width lies horizontally inside the bounding interval of its x axis |
| PlotAxis.ItemBoundsCoverY | src/qwt_plot_axis.cpp:817-835 | a contributing item with a non-negative height lies vertically inside the bounding interval of its y axis |
| PlotAxis.ItemBoundsUntouched | src/qwt_plot_axis.cpp:817-835 | an axis no contributing item uses keeps an invalid bounding interval |
| PlotAxis.QwtPlotAxes.constructor | src/qwt_plot_axis.cpp:98-144 | four default axes with their engines and widgets, of which the right and top axes are hidden |
| PlotAxis.QwtPlotAxes.AxisWidget | src/qwt_plot_axis.cpp:175-194 | a widget exactly for a valid axis, and then that axis's widget |
| PlotAxis.QwtPlotAxes.AxisScaleEngine | src/qwt_plot_axis.cpp:280-299 | an engine exactly for a valid axis, and then that axis's engine |
| PlotAxis.QwtPlotAxes.AxisAutoScale | src/qwt_plot_axis.cpp:306-312 | true exactly for a valid autoscaling axis |
| PlotAxis.QwtPlotAxes.IsAxisVisible | src/qwt_plot_axis.cpp:319-325 | true exactly for a valid visible axis |
| PlotAxis.QwtPlotAxes.AxisMaxMajor | src/qwt_plot_axis.cpp:345-351 | the axis's maximum of major ticks, 0 for an invalid axis |
| PlotAxis.QwtPlotAxes.AxisMaxMinor | src/qwt_plot_axis.cpp:358-364 | the axis's maximum of minor ticks, 0 for an invalid axis |
| PlotAxis.QwtPlotAxes.AxisStepSize | src/qwt_plot_axis.cpp:426-432 | the axis's step size, 0 for an invalid axis |
| PlotAxis.QwtPlotAxes.AxisInterval | src/qwt_plot_axis.cpp:446-452 | the bounds of the axis's division, and an invalid interval for an invalid axis |
| PlotAxis.QwtPlotAxes.VisibleXAxisId | src/qwt_plot_axis.cpp:214-222 | an x axis; the top one exactly when only it is visible, and a visible one whenever one is |
| PlotAxis.QwtPlotAxes.VisibleYAxisId | src/qwt_plot_axis.cpp:242-250 | a y axis; the right one exactly when only it is visible, and a visible one whenever one is |
| PlotAxis.QwtPlotAxes.SetAxisVisible | src/qwt_plot_axis.cpp:485-491 | only that axis's visibility changes, and the layout is updated exactly when it changes |
| PlotAxis.QwtPlotAxes.SetAxisAutoScale | src/qwt_plot_axis.cpp:566-572 | only that axis's autoscale flag changes, and a replot is requested exactly when it changes |
| PlotAxis.QwtPlotAxes.SetAxisScale | src/qwt_plot_axis.cpp:593-612 | fuzzily equal bounds and step change nothing; otherwise autoscale is off, the division invalid, the new range stored and a replot requested |
| PlotAxis.QwtPlotAxes.SetAxisScaleDiv | src/qwt_plot_axis.cpp:629-643 | a division fuzzily equal to the current one changes nothing; otherwise autoscale is off, the division stored and valid, and a replot requested |
| PlotAxis.QwtPlotAxes.SetAxisScaleEngine | src/qwt_plot_axis.cpp:259-273 | a non-null engine on a valid axis is stored, invalidates the division and requests a replot; otherwise nothing changes |
| PlotAxis.QwtPlotAxes.SetAxisMaxMinor | src/qwt_plot_axis.cpp:710-722 | the value is clamped to [0, 100]; a change invalidates the division and requests a replot |
| PlotAxis.QwtPlotAxes.SetAxisMaxMajor | src/qwt_plot_axis.cpp:732-744 | the value is clamped to [1, 10000]; a change invalidates the division and requests a replot |
| PlotAxis.QwtPlotAxes.UpdateAxes | src/qwt_plot_axis.cpp:807-871 | every axis ends with a valid division: autoscaled to the items' bounding interval when it autoscales and that is valid, recomputed when it was invalid, kept otherwise |
| PlotLayout.AlignedSize | src/qwt_plot_layout.cpp:138-181 | an x axis keeps its hint width less at most the widths of the y axes, a y axis its hint height less at most the x axes' tick offsets, and an axis without hint extent gets 0 |
| PlotLayout.AlignedSizeUnshifted | src/qwt_plot_layout.cpp:138-181 | when the border distances do not reach beyond the canvas borders, the aligned size is the full hint size |
| PlotLayout.QwtPlotLayout.constructor | src/qwt_plot_layout.cpp:200-209 | a bottom legend with ratio 0.33, spacing 5, canvas margin -1 on every axis, no alignment and all rectangles null |
| PlotLayout.QwtPlotLayout.SetCanvasMargin | src/qwt_plot_layout.cpp:236-249 | margins below -1 become -1; axis -1 sets all four, a valid axis only its own, any other position nothing; canvasMargin reads the value back |
| PlotLayout.QwtPlotLayout.CanvasMargin | src/qwt_plot_layout.cpp:256-262 | 0 for an invalid axis, otherwise the engine's margin read back as int |
| PlotLayout.QwtPlotLayout.SetAlignCanvasToScales | src/qwt_plot_layout.cpp:270-274 | every axis takes the flag and nothing else changes |
| PlotLayout.QwtPlotLayout.SetAlignCanvasToScale | src/qwt_plot_layout.cpp:301-305 | only a valid axis takes the flag |
| PlotLayout.QwtPlotLayout.AlignCanvasToScale | src/qwt_plot_layout.cpp:316-322 | true exactly for a valid axis whose flag is set |
| PlotLayout.QwtPlotLayout.SetSpacing | src/qwt_plot_layout.cpp:331-334 | negative spacing becomes 0, other values are stored |
| PlotLayout.QwtPlotLayout.EffectiveRatio | src/qwt_plot_layout.cpp:358-389 | the stored ratio lies in (0, 1]: a ratio in range is kept, above 1 becomes 1, and 0 or below becomes 0.33 for top or bottom and 0.5 for left or right |
| PlotLayout.QwtPlotLayout.SetLegendPosition | src/qwt_plot_layout.cpp:358-389 | a known position is stored with its effective ratio; an unknown one changes nothing |
| PlotLayout.QwtPlotLayout.SetLegendRatio | src/qwt_plot_layout.cpp:423-426 | keeps the position and stores the effective ratio for it |
| PlotLayout.QwtPlotLayout.SetScaleRect | src/qwt_plot_layout.cpp:516-520 | only a valid axis's rectangle changes, and scaleRect reads it back |
| PlotLayout.QwtPlotLayout.ScaleRect | src/qwt_plot_layout.cpp:527-533 | the axis's rectangle, and the null rectangle for an invalid axis |
| PlotLayout.QwtPlotLayout.Invalidate | src/qwt_plot_layout.cpp:566-572 | every rectangle becomes null |
| PlotLayout.LegendRatioStable | src/qwt_plot_layout.cpp:358-389 | passing an effective ratio through setLegendPosition again keeps it |
| Plot.NewPlotState | src/qwt_plot.cpp:174-177 | a new plot is not a parasite, has autoReplot off, shows YLeft and XBottom only and has no sharing connections |
| Plot.Changed | src/qwt_plot_axis.cpp:485-490 | the number of axes whose visibility differs between two settings, at most their count and zero exactly when they agree: the layout requests setAxisVisible makes when turning one into the other |
| Plot.ChangedDefaults | src/qwt_plot.cpp:1139-1168 | from a new plot's default axes, enableAxis changes three axes for XTop or YRight and one for XBottom or YLeft |
| Plot.IndexOf | src/qwt_plot.cpp:1411-1415 | QList::indexOf: -1 exactly when the value is absent, otherwise the position of its first occurrence |
| Plot.RemoveOne | src/qwt_plot.cpp:1264-1266 | reparenting drops the plot from its old parent's children: unchanged when absent, otherwise one element shorter with every other child kept |
| Plot.Reverse | src/qwt_plot.cpp:1385-1387 | std::reverse: same length, element i is the element at the mirrored position |
| Plot.QwtPlotTree.constructor | src/qwt_plot.cpp:174-177 | an empty plot table with no layout or replot requests |
| Plot.QwtPlotTree.NewPlot | src/qwt_plot.cpp:174-177 | the new plot is appended in its initial state and becomes the last child of its parent; nothing else changes |
| Plot.QwtPlotTree.CreateParasitePlot | src/qwt_plot.cpp:1130-1171 | on a parasite: null and nothing changes; otherwise a new parasite child of this host, appended to the host's children with every other child list unchanged, two layout requests (the parasite layout and addParasitePlot) plus one per axis whose visibility enableAxis changes, so five for XTop or YRight and three for XBottom or YLeft, showing exactly enableAxis when that is a valid position and the default axes otherwise |
| Plot.QwtPlotTree.AddParasitePlot | src/qwt_plot.cpp:1259-1272 | null is ignored; otherwise the plot is marked parasite under the host and no other plot changes; if it had another parent it leaves that parent's list (first occurrence removed) and is appended to the host's, every other list unchanged; one layout request is made |
| Plot.QwtPlotTree.RemoveParasitePlot | src/qwt_plot.cpp:1329-1338 | null is ignored; otherwise only the parasite mark is cleared, so the plot has no host any more but stays among its parent's children, and a layout is requested |
| Plot.QwtPlotTree.HostPlot | src/qwt_plot.cpp:1429-1435 | a host exactly for a parasite, and then it is the plot's parent |
| Plot.QwtPlotTree.ParasitePlots | src/qwt_plot.cpp:1363-1366 | the direct child plots, each a plot of the table |
| Plot.QwtPlotTree.PlotList | src/qwt_plot.cpp:1375-1389 | the host (this plot when it has none) followed by the host's parasites, reversed when descending |
| Plot.QwtPlotTree.ParasitePlotAt | src/qwt_plot.cpp:1396-1400 | QList::value: the parasite at the index when it is in range, null otherwise |
| Plot.QwtPlotTree.ParasitePlotIndex | src/qwt_plot.cpp:1411-1415 | -1 exactly when the plot is not a parasite of this host; otherwise an index at which parasitePlotAt returns it |
| Plot.QwtPlotTree.SetParasiteShareAxis | src/qwt_plot.cpp:1179-1221 | an invalid axis or a plot without host changes nothing; otherwise the old connection is dropped and the axis is shared afterwards exactly when sharing was asked and the host has that axis widget |
| Plot.QwtPlotTree.SetAutoReplot | src/qwt_plot.cpp:365-368 | stores the flag on that plot only |
| Plot.QwtPlotTree.Replot | src/qwt_plot.cpp:593-615 | the autoReplot flag is parked in autoReplotTemp, switched off for the redraw and restored, so it ends as it began; one redraw is requested |
| Plot.TopParasiteIsOutermost | src/qwt_plot.cpp:1458-1472 | the top parasite is the last plot of the ascending plot list and the first of the descending one |
| Plot.PlotListStartsWithHost | src/qwt_plot.cpp:1375-1389 | the ascending plot list starts with the host, and a parasite and its host see the same list |
| Plot.ShrinkRect | src/qwt_plot.cpp:1821-1840 | a zero delta or an invalid axis returns the rect; otherwise the extent across the axis shrinks by delta the canvas-side edge moves in while the outer edge (left for YLeft, right for YRight, bottom for XBottom, top for XTop) stays put |
| Plot.LayerSizes | src/qwt_plot.cpp:1843-1866 | layer 0 is the host's scale rect less its edge margin, measured across the axis |
| Plot.LayerPlots | src/qwt_plot.cpp:1843-1866 | layer 0 belongs to the host |
| Plot.LayerListsAligned | src/qwt_plot.cpp:1843-1866 | the layer sizes and the layer plots have the same length: parasites hiding the axis or lacking a parasite layout are skipped in both |
| Plot.AccumulateSize | src/qwt_plot.cpp:1878-1885 | the loop adds each layer's size into an int, truncating as it goes, and returns the specified accumulation |
| Plot.UpdateAxisEdgeMargin | src/qwt_plot.cpp:1805-1901 | no parasites: nothing is set; otherwise layer i gets edge margin equal to the sizes above it and, except for the host, margin equal to the sizes below it |
| Plot.AccumulateExact | src/qwt_plot.cpp:1878-1885 | with whole-pixel sizes the truncating int accumulation equals the exact sum |
| Plot.TruncOfWhole | src/qwt_plot.cpp:1882-1883 | converting a whole number to int loses nothing |
| Plot.SumSizesSplit | src/qwt_plot.cpp:1887-1890 | the sum over a band splits at any point into the part below and the part above |
| Plot.LayersTile | src/qwt_plot.cpp:1887-1901 | with whole-pixel sizes a layer's margin, its own size and its edge margin add up to the total, and the next layer's margin is this layer's margin plus its size |
| Plot.DataBoundsCover | src/qwt_plot.cpp:1573-1596 | there is no data exactly when no item is usable; otherwise every usable item's rect lies within the gathered bounds |
| Plot.DataBoundsAttained | src/qwt_plot.cpp:1590-1594 | each gathered bound is an edge of some usable item |
| Plot.CollectDataBounds | src/qwt_plot.cpp:1566-1596 | the loop over the items computes the specified data bounds |
| Plot.Widen | src/qwt_plot.cpp:1603-1609 | each range keeps the data's midpoint and gains marginPercent of the span on each side, so it contains the data for a non-negative margin |
| Plot.RescaleRangesAsWritten | src/qwt_plot.cpp:1598-1610 | as written, nothing is set exactly when there is no data or the margin exceeds 1 |
| Plot.RescaleRanges | src/qwt_plot.cpp:1598-1610 | corrected: ranges are set exactly when there is data; for margins up to 1 they agree with the source |
| Plot.RescaleRangesFitData | src/qwt_plot.cpp:1564-1612 | for a non-negative margin the ranges keep the data midpoints and contain every usable item |
| Plot.LargeMarginIgnored | src/qwt_plot.cpp:1602-1603 | with data on [0,10]x[0,4] and margin 5.0 the source leaves the axes unchanged, while the corrected version fits them to the data |
| ScaleDispatcher.PlotEntries | src/qwt_plot_scale_event_dispatcher.cpp:176-182 | one plot contributes at most one cache entry per axis slot |
| ScaleDispatcher.PlotEntriesExact | src/qwt_plot_scale_event_dispatcher.cpp:176-182 | a plot's cache entries are exactly its visible axes that have a scale widget, each valid and carrying that widget's rect |
| ScaleDispatcher.CacheEntriesExact | src/qwt_plot_scale_event_dispatcher.cpp:168-186 | the rebuilt cache holds exactly the visible scale widgets of every plot in the plot list, each entry valid |
| ScaleDispatcher.FirstTargetIsFirst | src/qwt_plot_scale_event_dispatcher.cpp:378-387 | no target exactly when no valid cache rect contains the point; otherwise the widget of the first entry containing it |
| ScaleDispatcher.QwtPlotScaleEventDispatcher.constructor | src/qwt_plot_scale_event_dispatcher.cpp:141-149 | enabled, nothing selected or pressed, and the cache built from the plot list |
| ScaleDispatcher.QwtPlotScaleEventDispatcher.SetEnable | src/qwt_plot_scale_event_dispatcher.cpp:155-158 | stores the flag and leaves the selection state and the cache alone |
| ScaleDispatcher.QwtPlotScaleEventDispatcher.RebuildCache | src/qwt_plot_scale_event_dispatcher.cpp:168-186 | the cache becomes the entries of the plot list and is no longer dirty; the selection state is untouched |
| ScaleDispatcher.QwtPlotScaleEventDispatcher.FindTargetOnScale | src/qwt_plot_scale_event_dispatcher.cpp:378-387 | the loop returns the first cache entry containing the point, null exactly when none does |
| ScaleDispatcher.QwtPlotScaleEventDispatcher.SetScaleSelected | src/qwt_scale_widget.cpp:886-893 | QwtScaleWidget::setSelected: the widget is added to or removed from the selection, every other widget's selection stays, and exactly one selectionChanged signal is logged when its state actually changes, none otherwise |
| ScaleDispatcher.QwtPlotScaleEventDispatcher.HandleMousePressAsWritten | src/qwt_plot_scale_event_dispatcher.cpp:235-268 | as written: non-left buttons change nothing; a left press first deselects the current scale unless it is the pressed one; off every scale it then resets, unconsumed; on a scale it makes that scale current and pressed and selects it only when it differs from the old current scale; the selection set and the signal log are stated exactly, one signal per actual change |
| ScaleDispatcher.QwtPlotScaleEventDispatcher.HandleMousePress | src/qwt_plot_scale_event_dispatcher.cpp:235-268 | corrected: as written, except that the pressed scale is always selected afterwards; the selection set and the signal log are stated exactly |
| ScaleDispatcher.QwtPlotScaleEventDispatcher.HandleScaleMousePan | src/qwt_plot_scale_event_dispatcher.cpp:344-357 | pans by the pointer's movement along the scale's direction, and only a non-zero movement pans and advances the last mouse position |
| ScaleDispatcher.QwtPlotScaleEventDispatcher.HandleMouseMove | src/qwt_plot_scale_event_dispatcher.cpp:271-297 | consumed exactly while a current scale is pressed and allows click-pan; then a non-zero move along the scale's direction pans it by that many pixels and becomes the last position, and a zero move pans nothing; otherwise nothing changes; selection and cache never change |
| ScaleDispatcher.QwtPlotScaleEventDispatcher.HandleMouseRelease | src/qwt_plot_scale_event_dispatcher.cpp:300-327 | right button: consumed exactly on the current scale, which is then released and removed from the selection with one signal when it was selected; left button: always released, consumed exactly over some scale; other buttons change nothing; the current scale, position, cache and logs otherwise stay |
| ScaleDispatcher.QwtPlotScaleEventDispatcher.HandleWheelEvent | src/qwt_plot_scale_event_dispatcher.cpp:329-375 | consumed exactly when the pointer is over the current scale and it allows wheel zoom; then it zooms in for a positive delta and out otherwise; selection, signals and everything else stay |
| ScaleDispatcher.EventFilter | src/qwt_plot_scale_event_dispatcher.cpp:203-233 | corrected filter: disabled, or an object that is not a plot: nothing changes; resize, layout and polish rebuild the cache unconsumed and change no selection, signal or flag; a press has the corrected press handler's effect; move, release and wheel events have their handlers' effects; other events change nothing |
| ScaleDispatcher.EventFilterAsWritten | src/qwt_plot_scale_event_dispatcher.cpp:203-233 | as written: disabled, or an object that is not a plot: nothing changes; resize, layout and polish rebuild the cache unconsumed and change no selection, signal or flag; a press has the as-written press handler's effect; move, release and wheel events have their handlers' effects; other events change nothing |
| ScaleDispatcher.DispatchOther | src/qwt_plot_scale_event_dispatcher.cpp:212-229 | every event but a press: geometry events rebuild the cache, mouse move, release and wheel events have their handlers' effects, anything else changes nothing |
| ScaleDispatcher.ReselectAsWrittenExample | src/qwt_plot_scale_event_dispatcher.cpp:235-327 | as written, through the event filter: press, right-release and press again on the same scale leave it current and pressed but deselected |
| ScaleDispatcher.ReselectExample | src/qwt_plot_scale_event_dispatcher.cpp:235-327 | through the corrected event filter the same sequence leaves the scale selected |
| ScaleWidget.AxisOfAlignment | src/qwt_scale_widget.cpp:809-825 | a valid axis exactly for the four alignments; an X axis exactly for bottom and top scales, a Y axis exactly for left and right scales |
| ScaleWidget.AxisOfAlignmentInjective | src/qwt_scale_widget.cpp:809-825 | distinct alignments map to distinct axes |
| ScaleWidget.QwtScaleWidget.constructor | src/qwt_scale_widget.cpp:45-127 | margin 0, edge margin 0, spacing 2, both border distances 0, TitleInverted set exactly for a right scale, unselected, zoom factor 1.2, no title, colour bar off with width 10 and an invalid interval |
| ScaleWidget.QwtScaleWidget.SetLayoutFlag | src/qwt_scale_widget.cpp:246-268 | afterwards testLayoutFlag reports the given value for that flag and every other flag is unchanged; no re-layout |
| ScaleWidget.QwtScaleWidget.SetTitle | src/qwt_scale_widget.cpp:276-282 | stores the title and re-lays out only when the text changes |
| ScaleWidget.QwtScaleWidget.SetMargin | src/qwt_scale_widget.cpp:346-352 | stores max(0, margin) and re-lays out only when that changes the value |
| ScaleWidget.QwtScaleWidget.SetSpacing | src/qwt_scale_widget.cpp:360-366 | stores max(0, spacing) and re-lays out only when that changes the value |
| ScaleWidget.QwtScaleWidget.SetEdgeMargin | src/qwt_scale_widget.cpp:477-484 | stores max(0, offset) and re-lays out only when that changes the value |
| ScaleWidget.QwtScaleWidget.SetAlignment | src/qwt_scale_widget.cpp:311-327 | stores the alignment, axisID follows it, and the scale is always re-laid out |
| ScaleWidget.QwtScaleWidget.AxisID | src/qwt_scale_widget.cpp:809-848 | the axis of the current alignment: valid exactly for the four alignments, X for bottom and top, Y for left and right |
| ScaleWidget.QwtScaleWidget.SetSelected | src/qwt_scale_widget.cpp:886-893 | stores the flag and emits selectionChanged only when it changes |
| ScaleWidget.QwtScaleWidget.SetZoomFactor | src/qwt_scale_widget.cpp:931-934 | the factor is clamped into [0.1, 10] |
| ScaleWidget.QwtScaleWidget.SetBorderDist | src/qwt_scale_widget.cpp:1128-1135 | stores both distances and re-lays out only when either changes |
| ScaleWidget.QwtScaleWidget.SetMinBorderDist | src/qwt_scale_widget.cpp:1199-1242 | getMinBorderDist returns the stored pair afterwards; no re-layout |
| ScaleWidget.QwtScaleWidget.GetBorderDistHint | src/qwt_scale_widget.cpp:1176-1184 | each end is the scale draw's hint raised to the minimum border distance: at least both, and equal to one of them |
| ScaleWidget.QwtScaleWidget.SetColorBarEnabled | src/qwt_scale_widget.cpp:1279-1285 | stores the flag and re-lays out only when it changes |
| ScaleWidget.QwtScaleWidget.SetColorBarWidth | src/qwt_scale_widget.cpp:1302-1309 | stores the width and re-lays out only when it changes while the colour bar is enabled |
| ScaleWidget.QwtScaleWidget.SetColorMap | src/qwt_scale_widget.cpp:1338-1345 | stores the interval and re-lays out exactly when the colour bar is enabled |
| ScaleWidget.QwtScaleWidget.DimForLength | src/qwt_scale_widget.cpp:1105-1114 | margin + ceil(extent) + 1 + edge margin, plus title height and spacing when there is a title, plus bar width and spacing when the colour bar is enabled with a valid interval; never below the base with non-negative parts |
| ScaleWidget.DimWithoutTitleKeepsSpacing | src/qwt_scale_widget.cpp:1108-1110 | with a title, removing the title height still leaves the spacing that separates it |
| ScaleDraw.ClampTickLength | src/qwt_abstract_scale_draw.cpp:377-382 | a tick length is clamped into [0, 1000] and left alone inside it |
| ScaleDraw.NonNegative | src/qwt_abstract_scale_draw.cpp:310-316 | negative values become 0, others are kept |
| ScaleDraw.QwtAbstractScaleDraw.constructor | src/qwt_abstract_scale_draw.cpp:42-63 | all three components on, tick lengths 4, 6 and 8, spacing 4, pen width 0, minimum extent 0, selection offset 1, unselected and an empty label cache |
| ScaleDraw.QwtAbstractScaleDraw.EnableComponent | src/qwt_abstract_scale_draw.cpp:94-112 | hasComponent reports the given value for that component and every other component is unchanged |
| ScaleDraw.QwtAbstractScaleDraw.SetScaleDiv | src/qwt_abstract_scale_draw.cpp:118-123 | stores the division, maps the scale interval to its bounds and empties the label cache |
| ScaleDraw.QwtAbstractScaleDraw.SetPenWidthF | src/qwt_abstract_scale_draw.cpp:158-164 | stores the width raised to 0 |
| ScaleDraw.QwtAbstractScaleDraw.SetSelected | src/qwt_abstract_scale_draw.cpp:179-182 | stores the selection flag |
| ScaleDraw.QwtAbstractScaleDraw.SetSelectedPenWidthOffset | src/qwt_abstract_scale_draw.cpp:204-207 | stores the offset |
| ScaleDraw.QwtAbstractScaleDraw.DrawPenWidth | src/qwt_abstract_scale_draw.cpp:231-240 | unselected: the pen width; selected: the offset added to the pen width, or to 1 when the pen width is zero, so never thinner for a non-negative offset |
| ScaleDraw.QwtAbstractScaleDraw.SetSpacing | src/qwt_abstract_scale_draw.cpp:310-316 | stores the spacing raised to 0 |
| ScaleDraw.QwtAbstractScaleDraw.SetMinimumExtent | src/qwt_abstract_scale_draw.cpp:345-351 | stores the minimum extent raised to 0 |
| ScaleDraw.QwtAbstractScaleDraw.SetTickLength | src/qwt_abstract_scale_draw.cpp:371-385 | an invalid tick type changes nothing; otherwise only that entry is set, to the length clamped into [0, 1000] |
| ScaleDraw.QwtAbstractScaleDraw.TickLength | src/qwt_abstract_scale_draw.cpp:391-398 | 0 for an invalid tick type, otherwise the stored length, always within [0, 1000] |
| ScaleDraw.QwtAbstractScaleDraw.MaxTickLength | src/qwt_abstract_scale_draw.cpp:406-413 | the loop returns the longest of the three tick lengths: no entry exceeds it and one equals it |
| ScaleDraw.QwtAbstractScaleDraw.TickLabel | src/qwt_abstract_scale_draw.cpp:444-458 | a cached value returns its cached label and leaves the cache; otherwise label(value) is computed and inserted; a cache consistent with label() stays consistent and the result is label(value) |
| ScaleDraw.QwtAbstractScaleDraw.InvalidateCache | src/qwt_abstract_scale_draw.cpp:467-470 | empties the label cache and nothing else |
| ScaleDraw.TickLabelTwice | src/qwt_abstract_scale_draw.cpp:444-470 | two lookups of the same value give the same label even if label() changed in between, which is why invalidateCache must be called by hand |
| SeriesData.SeqMin | src/qwt_series_data.cpp:55-64 | the smallest value of a non-empty set, attained by one of its elements |
| SeriesData.SeqMax | src/qwt_series_data.cpp:55-64 | the largest value of a non-empty set, attained by one of its elements |
| SeriesData.SampleRect | src/qwt_series_data.cpp:30-85 | points, 3D points and vector-field samples give a zero-size rect at (x, y), polar samples at (azimuth, radius); an interval sample spans its interval at height value; an empty set gives height -1, a non-empty set spans exactly its smallest to largest value; an OHLC sample spans all four prices at its time |
| SeriesData.SetSampleRect | src/qwt_series_data.cpp:50-67 | the min/max loop over a set sample yields the specified rectangle |
| SeriesData.Merge | src/qwt_series_data.cpp:124-127 | the merged rect's left and top are the minima and its right and bottom the maxima of the two rects' edges |
| SeriesData.HullCovers | src/qwt_series_data.cpp:111-129 | no hull exactly when no rect in the range has non-negative width and height; otherwise the hull is such a rect, contains every one of them, and each of its edges is an edge of one of them |
| SeriesData.BoundingRectT | src/qwt_series_data.cpp:99-132 | to 0 means the last sample; to before from, or no usable sample, gives the invalid rect (1, 1, -2, -2); otherwise the hull of the usable sample rects from from to to |
| SeriesData.QwtPointSeriesData.constructor | src/qwt_series_data.cpp:253-255 | stores the samples with the cached rect marked not computed |
| SeriesData.QwtPointSeriesData.BoundingRect | src/qwt_series_data.cpp:265-271 | a computed cache is returned as is; otherwise the bounding rect of all samples is computed once, cached and returned |
| SeriesData.PointSeriesRectUsable | src/qwt_series_data.cpp:265-271 | the bounding rect of a non-empty point series has non-negative width, so the next call takes it from the cache |

## Left out

- Painting, fonts, palettes, cursors, focus chains and size policies are not modelled. This covers `qwtDrawPanel`, the raised frame, the column symbol's draw and drawBox dispatch, and the scale widget's and scale draw's drawing. Only the state these functions read is modelled.
- Pens and brushes are reduced to their width and colour.
- Floating-point rounding is not modelled: `double` is `real`, and `std::isfinite` always holds in the model.
- Integer conversions and rounding are written out where the source relies on them (`qRound`, `qwtCeil`, truncating `int` sums, the layout engine's `unsigned int` margins). Overflow of `int` is not modelled.
- Qt's parent/child tree, `deleteLater`, signal connections and event delivery are reduced to explicit fields and event logs. Which plot sits where is an index into a table.
- `QwtScaleDiv`, the scale engines, `QwtScaleMap` transformations and `qwt_scale_div.cpp` are not part of this model. The model takes what it needs from them as parameters: scale-div fuzzy comparison, label text, extents and border-distance hints.
- `QwtInterval::unite` is modelled for intervals with closed borders only.
- GridData: the bilinear and bicubic resamplers (src/qwt_grid_data.hpp:532-672) are not part of this model.
- Figure: re-parenting widgets, figure sizes in inches and saving to files are left out. The axesRemoved and figureCleared signals and the `deleteLater` calls are logged. `setWidgetNormPos` is not part of this model.
- FigureLayout: `setGeometry`'s conversion of normalised rectangles to pixels, and its `qRound` overflow, are left out.
- CanvasZoomer.QwtCanvasZoomer.constructor: models a zoomer on the canvas of a plot only. With a null canvas, or a canvas whose parent is not a plot, the source leaves the zoom stack empty with index 0, which the model's invariant (the cursor is on an entry) excludes. The `doReplot` replot before the base state is taken is not modelled; the base state is a parameter.
- PlotCanvasZoomer.QwtPlotCanvasZoomer.constructor: models a zoomer on the canvas of a plot only. Without a plot the source leaves the zoom stack empty with index 0, which the model's invariant excludes. `doReplot` is stored, but the `replotAll` call it triggers is not modelled.
- FigureOverlay.QwtFigureWidgetOverlay.OnHoverMove: requires a figure of positive size. The source divides by the figure's width and height when it normalises the new rectangle.
- FigureOverlay: setting the cursor on the widget is left out. So are the overlay's paint bitmaps and mouse tracking.
- PlotLayoutEngine.QwtPlotLayoutEngine.LayoutDimensions: requires the text-height and title-height metrics to be bounded by a ghost constant. The loop's termination rests on that bound, which real fonts satisfy.
- PlotLayoutEngine: the engine's constructor leaves the alignment flags uninitialised (src/qwt_plot_layout_engine.h:151). Its only owner, `QwtPlotLayout`, sets them all to false in its own constructor straight away (src/qwt_plot_layout.cpp:206), so the model starts them false. `alignScales`, `alignScalesToCanvas` geometry and `minimumSizeHint` are left out.
- Plot.QwtPlotTree.RemoveParasitePlot: only the parasite flag is cleared, as in the source. The plot stays among its parent's children and so still appears in `parasitePlots()`. The edge-margin refresh it triggers is modelled separately by `Plot.UpdateAxisEdgeMargin` and is not chained here.
- Plot: `autoReplotTemp` is not initialised by the source; the model starts it as false. Title, footer and legend-item setters are left out.
- LegendData: `QString::toInt` is a parameter (0 for text that is not a number). `title()` and `icon()` are left out.
- SeriesData: an OHLC sample's `boundingInterval` is taken as the hull of its four prices. The default arguments of the `qwtBoundingRect` overloads are not modelled.
- SeriesData.BoundingRectT: requires the scanned range to lie inside the series, which includes a non-empty series when `to` is 0. For an empty series the source computes `size() - 1` in `size_t` and reads past the end.
- Panner.PanAxis: an axis whose pixel distance is 0 is left unchanged. The source divides by that distance.
- Panner: the `QwtPicker`/`QwtPanner` machinery underneath is reduced to an active flag. The return value of `end()` and the `canvas()`/`plot()` lookups are left out. The header does not declare `setEnabled`, `begin` or `moved`; the model follows the .cpp file.
- CanvasZoomer and PlotCanvasZoomer: `rescale()` (src/qwt_canvas_zoomer.cpp:285-294, src/qwt_plot_canvas_zoomer.cpp:278-288) applies the current zoom state to the plot or plots and replots. The model does not apply or replot; the state the cursor lands on is recorded in the `zoomed` log instead.
- Panner.QwtPlotPanner.Move: the source also calls `moveCanvas(dx, dy)` right after emitting `moved` (src/qwt_plot_panner.cpp:166). Move records the offset in `movedLog` but does not chain `Panner.MoveCanvas`, whose contract states that call's effect on its own.
- Magnifier: the inherited `QwtMagnifier` behaviour (key and wheel handling) is left out. `replotAll` is recorded as a flag.
- ClassInclude: `\s` and `\w` are matched as their ASCII classes. Non-ASCII identifiers and whitespace are not modelled. File-system access, argparse and console output are parameters or left out. Paths use `/` separators only.

## Findings

| source | as written | input that shows it | evidently intended | confidence | as-written member | corrected member |
|---|---|---|---|---|---|---|
| src/qwt_grid_data.hpp:181-201 | `setValue` sorts the axes but takes xMin/xMax/yMin/yMax from the first and last elements of the unsorted arguments | x axis [1, 0] | the bounds are the smallest and largest axis values | not executed | GridData.UnsortedAxisBoundExample | GridData.QwtGridData.SetValueSorted |
| src/qwt_canvas_zoomer.cpp:270-271 | `setZoomStack` replaces an index < 0 or > count, but keeps index == count, one past the last entry | a stack of 3 states with index 3 | every index outside [0, count) is replaced by count - 1 | not executed | CanvasZoomer.SetZoomStackIndexOutOfRange | CanvasZoomer.SetZoomStackIndex |
| src/qwt_plot_canvas_zoomer.cpp:270-276 | `appendZoom` pushes above every entry, redo entries included, so the stack can outgrow maxStackDepth | limit 1: zoom in, zoom out, zoom in | the entries above the current index are dropped before the push, as `QwtCanvasZoomer::zoom` does | not executed | PlotCanvasZoomer.DepthLimitExceeded | PlotCanvasZoomer.QwtPlotCanvasZoomer.ZoomSelectionTruncating |
| src/qwt_figure.cpp:382-404 | `clear` removes item i and then advances i, so every second item survives while figureCleared is emitted | a figure with two plots | every plot is removed, as the function's comment says | not executed | Figure.ClearLeavesPlotExample | Figure.QwtFigure.Clear |
| src/qwt_figure_widget_overlay.cpp:189-204 | the left-edge test `pos.x < left - err` contradicts the preceding containment test, so the left edge is never detected | point (0, 50), rect (0, 0, 100, 100), err 4 | the left edge is detected like the right one, with `pos.x < left + err` | not executed | FigureOverlay.IsPointInRectEdgeAsWrittenMissesLeftEdge | FigureOverlay.LeftEdgeDetected |
| src/qwt_plot.cpp:1598-1610 | `rescaleAxes` with marginPercent > 1 has an empty branch and sets no axis at all | data [0, 10] x [0, 4], marginPercent 5.0 | the axes are still fitted to the data, without the margin | not executed | Plot.LargeMarginIgnored | Plot.RescaleRanges |
| src/qwt_plot_scale_event_dispatcher.cpp:235-327 | a right-button release deselects the current scale but keeps it current, and a later left press on the same scale does not select it again | left press, right release, left press on one scale | the pressed scale is selected again | not executed | ScaleDispatcher.ReselectAsWrittenExample | ScaleDispatcher.ReselectExample |
